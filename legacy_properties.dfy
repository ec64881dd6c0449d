/**
 * The older property page: the checks `createProperty` makes before its
 * insert, the inserted record, and the form reset after a successful
 * insert. `Number(text)` is a parameter `num` yielding None for NaN; a
 * comparison with NaN is false, so a price that does not parse passes the
 * `<= 0` check exactly as in the page.
 */
module LegacyProperties {
  import opened Wrappers

  const MsgNoClient: string := "Selecciona un cliente."
  const MsgBadPrice: string := "Precio inválido."
  const MsgBadInitial: string := "Inicial inválida."
  const MsgNoLocation: string := "Ubicación obligatoria."
  const MsgInitialAbovePrice: string := "La inicial no puede ser mayor al precio."
  const MsgCreated: string := "✅ Propiedad creada."

  /** `Number(x) <= 0`, false when `x` is NaN. */
  predicate AtMostZero(x: Option<real>) { x.Some? && x.value <= 0.0 }

  /** `Number(x) < 0`, false when `x` is NaN. */
  predicate Negative(x: Option<real>) { x.Some? && x.value < 0.0 }

  /** `Number(a) > Number(b)`, false when either is NaN. */
  predicate Exceeds(a: Option<real>, b: Option<real>) { a.Some? && b.Some? && a.value > b.value }

  /** The checks of `createProperty` after the user check, first failing message first. */
  function Validate(clientId: string, price: string, initial: string, location: string, num: string -> Option<real>)
    : (r: Option<string>)
    ensures r == None <==>
      clientId != "" && price != "" && !AtMostZero(num(price)) && !Negative(num(initial)) &&
      location != "" && !Exceeds(num(initial), num(price))
    ensures r == Some(MsgNoClient) <==> clientId == ""
    ensures r == Some(MsgBadPrice) <==> clientId != "" && (price == "" || AtMostZero(num(price)))
    ensures r == Some(MsgBadInitial) <==>
      clientId != "" && price != "" && !AtMostZero(num(price)) && Negative(num(initial))
    ensures r == Some(MsgNoLocation) <==>
      clientId != "" && price != "" && !AtMostZero(num(price)) && !Negative(num(initial)) && location == ""
    ensures r == Some(MsgInitialAbovePrice) <==>
      clientId != "" && price != "" && !AtMostZero(num(price)) && !Negative(num(initial)) && location != "" &&
      Exceeds(num(initial), num(price))
  {
    if clientId == "" then Some(MsgNoClient)
    else if price == "" || AtMostZero(num(price)) then Some(MsgBadPrice)
    else if Negative(num(initial)) then Some(MsgBadInitial)
    else if location == "" then Some(MsgNoLocation)
    else if Exceeds(num(initial), num(price)) then Some(MsgInitialAbovePrice)
    else None
  }

  /** The comparison is strict: an initial payment equal to a positive price is accepted. */
  lemma InitialEqualToPriceAccepted(clientId: string, price: string, initial: string, location: string,
                                    num: string -> Option<real>)
    requires clientId != "" && price != "" && location != ""
    requires num(price).Some? && num(price).value > 0.0 && num(initial) == num(price)
    ensures Validate(clientId, price, initial, location, num) == None
  {
  }

  /** The record sent to the `properties` table; `areaM2` is None for null and Some(None) for NaN. */
  datatype PropertyInsert = PropertyInsert(
    userId: string, clientId: Option<real>, price: Option<real>, initialPayment: Option<real>,
    location: string, areaM2: Option<Option<real>>)

  /** The insert built from the form: the area is null when its text is empty. */
  function InsertOf(userId: string, clientId: string, price: string, initial: string, location: string,
                    area: string, num: string -> Option<real>): (ins: PropertyInsert)
    ensures ins.areaM2 == None <==> area == ""
    ensures area != "" ==> ins.areaM2 == Some(num(area))
    ensures ins.userId == userId && ins.location == location && ins.price == num(price)
    ensures ins.clientId == num(clientId) && ins.initialPayment == num(initial)
  {
    PropertyInsert(userId, num(clientId), num(price), num(initial), location,
                   if area == "" then None else Some(num(area)))
  }

  /** The page's form and message state. */
  class PropertiesPage {
    var userId: Option<string>
    var clientId: string
    var price: string
    var initialPayment: string
    var location: string
    var area: string
    var msg: Option<string>
    var inserted: seq<PropertyInsert>

    /** The form as the page first shows it and as it is reset after a save. */
    predicate FormIsBlank()
      reads this
    {
      clientId == "" && price == "" && initialPayment == "0" && location == "" && area == ""
    }

    constructor(userId0: Option<string>)
      ensures FormIsBlank() && msg == None && inserted == [] && userId == userId0
    {
      userId := userId0;
      clientId, price, initialPayment, location, area := "", "", "0", "", "";
      msg := None;
      inserted := [];
    }

    /**
     * `createProperty`. `insertError` is the error the insert reports, if
     * any; reloading the lists is not modelled.
     */
    method CreateProperty(num: string -> Option<real>, insertError: Option<string>)
      modifies this
      ensures userId == old(userId)
      ensures var v := Validate(old(clientId), old(price), old(initialPayment), old(location), num);
        if old(userId).None? || old(userId).value == "" then
          msg == None && inserted == old(inserted) && unchanged(this`clientId, this`price, this`initialPayment, this`location, this`area)
        else if v.Some? then
          msg == v && inserted == old(inserted) && unchanged(this`clientId, this`price, this`initialPayment, this`location, this`area)
        else
          && inserted == old(inserted) + [InsertOf(old(userId).value, old(clientId), old(price), old(initialPayment),
                                                   old(location), old(area), num)]
          && (insertError.Some? ==>
                msg == insertError &&
                unchanged(this`clientId, this`price, this`initialPayment, this`location, this`area))
          && (insertError.None? ==> msg == Some(MsgCreated) && FormIsBlank())
    {
      msg := None;
      if userId.None? || userId.value == "" {
        return;
      }
      var v := Validate(clientId, price, initialPayment, location, num);
      if v.Some? {
        msg := v;
        return;
      }
      inserted := inserted + [InsertOf(userId.value, clientId, price, initialPayment, location, area, num)];
      if insertError.Some? {
        msg := insertError;
        return;
      }
      clientId, price, initialPayment, location, area := "", "", "0", "", "";
      msg := Some(MsgCreated);
    }
  }
}
