/**
 * The client form: the ordered checks of `validate` and the payload of
 * `submit`. `Number(text)` is a parameter `num` that yields None for
 * NaN and the infinities, so `Number.isFinite` is `Some?`.
 */
module ClientModal {
  import opened Wrappers
  import opened Strings
  import opened Lists

  /** The form state; every field is the text of its input. */
  datatype ClientForm = ClientForm(
    dni: string, names: string, lastNames: string, email: string, phone: string,
    residence: string, occupation: string, incomeRange: string, educationLevel: string,
    monthlyIncome: string, monthlyExpenses: string, dependents: string)

  /** `/^\d+$/`. */
  predicate OneOrMoreDigits(s: string) { |s| > 0 && AllDigits(s) }

  /** The accented capitals and small letters `/[ÁÉÍÓÚÜÑáéíóúüñ]/` admits. */
  const Accented: string := "ÁÉÍÓÚÜÑáéíóúüñ"

  /** A character of `/[A-Za-zÁÉÍÓÚÜÑáéíóúüñ\s']/`. */
  predicate IsNameChar(c: char)
  {
    ('A' <= c <= 'Z') || ('a' <= c <= 'z') || c in Accented || IsWhitespace(c) || c == '\''
  }

  /** `/^[A-Za-zÁÉÍÓÚÜÑáéíóúüñ\s']+$/`. */
  predicate OnlyLetters(s: string)
  {
    |s| > 0 && forall k :: 0 <= k < |s| ==> IsNameChar(s[k])
  }

  /** The index of the last '.' among the first `n` characters, or -1. */
  function LastDotBefore(e: string, n: nat): (j: int)
    requires n <= |e|
    ensures -1 <= j < n
    ensures j >= 0 ==> e[j] == '.'
    ensures forall k :: j < k < n ==> e[k] != '.'
  {
    if n == 0 then -1 else if e[n - 1] == '.' then n - 1 else LastDotBefore(e, n - 1)
  }

  /**
   * `/^\S+@\S+\.\S+$/` decided by a scan: no whitespace, and taking the last
   * '.' that still has a character after it, an '@' at index 1 or later
   * that leaves at least one character before that '.'.
   */
  predicate EmailFormat(e: string)
  {
    NoWhitespace(e) && |e| >= 1 &&
    var j := LastDotBefore(e, |e| - 1);
    j >= 3 && '@' in e[1..j - 1]
  }

  /** What the pattern says, directly: some '@' and some later '.' split the text into three non-empty runs. */
  ghost predicate EmailShape(e: string)
  {
    NoWhitespace(e) && exists i, j :: 1 <= i && i + 2 <= j && j + 1 < |e| && e[i] == '@' && e[j] == '.'
  }

  lemma EmailFormatIff(e: string)
    ensures EmailFormat(e) <==> EmailShape(e)
  {
    if EmailFormat(e) {
      var j := LastDotBefore(e, |e| - 1);
      var m :| 0 <= m < |e[1..j - 1]| && e[1..j - 1][m] == '@';
      assert e[m + 1] == '@';
    }
    if EmailShape(e) {
      var i, j :| 1 <= i && i + 2 <= j && j + 1 < |e| && e[i] == '@' && e[j] == '.';
      var jj := LastDotBefore(e, |e| - 1);
      assert jj >= j;
      assert e[1..jj - 1][i - 1] == '@';
    }
  }

  /** `Number.isFinite(x) && x >= 0`. */
  predicate NonNegative(x: Option<real>) { x.Some? && x.value >= 0.0 }

  /** `Number.isFinite(x) && x >= 0 && Number.isInteger(x)`. */
  predicate NonNegativeInteger(x: Option<real>) { x.Some? && x.value >= 0.0 && x.value.Floor as real == x.value }

  /** A user id that is neither null nor empty. */
  predicate HasUser(userId: Option<string>) { userId.Some? && userId.value != "" }

  const MsgNoDni: string := "El DNI es obligatorio"
  const MsgDniNotNumeric: string := "El DNI debe ser numérico"
  const MsgDniLength: string := "El DNI debe tener 8 dígitos"
  const MsgNoNames: string := "Los nombres son obligatorios"
  const MsgNoLastNames: string := "Los apellidos son obligatorios"
  const MsgBadNames: string := "Los nombres no pueden contener números ni caracteres inválidos"
  const MsgBadLastNames: string := "Los apellidos no pueden contener números ni caracteres inválidos"
  const MsgNoEmail: string := "El email es obligatorio"
  const MsgBadEmail: string := "El email no tiene un formato válido"
  const MsgNoPhone: string := "El teléfono es obligatorio"
  const MsgPhoneNotNumeric: string := "El teléfono debe contener solo números"
  const MsgPhoneNegative: string := "El teléfono no puede ser negativo"
  const MsgPhoneShort: string := "El teléfono parece demasiado corto"
  const MsgNoResidence: string := "La residencia es obligatoria"
  const MsgNoOccupation: string := "La ocupación es obligatoria"
  const MsgNoIncomeRange: string := "El rango de ingresos es obligatorio"
  const MsgNoEducation: string := "El nivel educativo es obligatorio"
  const MsgNoIncome: string := "El ingreso mensual es obligatorio"
  const MsgBadIncome: string := "El ingreso mensual debe ser un número >= 0"
  const MsgNoExpenses: string := "El egreso mensual es obligatorio"
  const MsgBadExpenses: string := "El egreso mensual debe ser un número >= 0"
  const MsgNoDependents: string := "Los dependientes son obligatorios"
  const MsgBadDependents: string := "Los dependientes deben ser un entero >= 0"
  const MsgNoUser: string := "No se encontró usuario autenticado"

  /** The DNI checks: present, numeric, eight characters, reported in that order. */
  function CheckDni(dni: string): (r: Option<string>)
    ensures r == None <==> AllDigits(dni) && |dni| == 8
    ensures r == Some(MsgNoDni) <==> dni == ""
    ensures r == Some(MsgDniNotNumeric) <==> dni != "" && !AllDigits(dni)
    ensures r == Some(MsgDniLength) <==> OneOrMoreDigits(dni) && |dni| != 8
  {
    if dni == "" then Some(MsgNoDni)
    else if !OneOrMoreDigits(dni) then Some(MsgDniNotNumeric)
    else if |dni| != 8 then Some(MsgDniLength)
    else None
  }

  /** Both names are required first, then both are checked for letters. */
  function CheckNames(names: string, last: string): (r: Option<string>)
    ensures r == None <==> OnlyLetters(names) && OnlyLetters(last)
    ensures r == Some(MsgNoNames) <==> names == ""
    ensures r == Some(MsgNoLastNames) <==> names != "" && last == ""
    ensures r == Some(MsgBadNames) <==> names != "" && last != "" && !OnlyLetters(names)
    ensures r == Some(MsgBadLastNames) <==> OnlyLetters(names) && last != "" && !OnlyLetters(last)
  {
    if names == "" then Some(MsgNoNames)
    else if last == "" then Some(MsgNoLastNames)
    else if !OnlyLetters(names) then Some(MsgBadNames)
    else if !OnlyLetters(last) then Some(MsgBadLastNames)
    else None
  }

  function CheckEmail(email: string): (r: Option<string>)
    ensures r == None <==> EmailShape(email)
    ensures r == Some(MsgNoEmail) <==> email == ""
    ensures r == Some(MsgBadEmail) <==> email != "" && !EmailShape(email)
  {
    EmailFormatIff(email);
    if email == "" then Some(MsgNoEmail)
    else if !EmailFormat(email) then Some(MsgBadEmail)
    else None
  }

  /**
   * The phone checks. The sign check sits after the digit check, which
   * already rejects a '-', so its message is never produced.
   */
  function CheckPhone(phone: string): (r: Option<string>)
    ensures r == None <==> AllDigits(phone) && |phone| >= 6
    ensures r == Some(MsgNoPhone) <==> phone == ""
    ensures r == Some(MsgPhoneNotNumeric) <==> phone != "" && !AllDigits(phone)
    ensures r != Some(MsgPhoneNegative)
    ensures r == Some(MsgPhoneShort) <==> OneOrMoreDigits(phone) && |phone| < 6
  {
    if phone == "" then Some(MsgNoPhone)
    else if !OneOrMoreDigits(phone) then Some(MsgPhoneNotNumeric)
    else if StartsWith(phone, "-") then (DigitsHaveNoSign(phone); Some(MsgPhoneNegative))
    else if |phone| < 6 then Some(MsgPhoneShort)
    else None
  }

  /** A text of digits never starts with '-'. */
  lemma DigitsHaveNoSign(s: string)
    requires OneOrMoreDigits(s)
    ensures !StartsWith(s, "-")
  {
    assert IsDigit(s[0]);
  }

  /** Residence, occupation, income range and education level must not be blank. */
  function CheckProfile(f: ClientForm): (r: Option<string>)
    ensures r == None <==>
      Trim(f.residence) != "" && Trim(f.occupation) != "" && Trim(f.incomeRange) != "" && Trim(f.educationLevel) != ""
    ensures r == Some(MsgNoResidence) <==> Trim(f.residence) == ""
    ensures r == Some(MsgNoOccupation) <==> Trim(f.residence) != "" && Trim(f.occupation) == ""
    ensures r == Some(MsgNoIncomeRange) <==>
      Trim(f.residence) != "" && Trim(f.occupation) != "" && Trim(f.incomeRange) == ""
    ensures r == Some(MsgNoEducation) <==>
      Trim(f.residence) != "" && Trim(f.occupation) != "" && Trim(f.incomeRange) != "" && Trim(f.educationLevel) == ""
  {
    if Trim(f.residence) == "" then Some(MsgNoResidence)
    else if Trim(f.occupation) == "" then Some(MsgNoOccupation)
    else if Trim(f.incomeRange) == "" then Some(MsgNoIncomeRange)
    else if Trim(f.educationLevel) == "" then Some(MsgNoEducation)
    else None
  }

  /** Income and expenses finite and non-negative, dependents a finite non-negative integer. */
  function CheckAmounts(income: string, expenses: string, dependents: string, num: string -> Option<real>)
    : (r: Option<string>)
    ensures r == None <==>
      income != "" && NonNegative(num(income)) && expenses != "" && NonNegative(num(expenses)) &&
      dependents != "" && NonNegativeInteger(num(dependents))
    ensures r == Some(MsgNoIncome) <==> income == ""
    ensures r == Some(MsgBadIncome) <==> income != "" && !NonNegative(num(income))
    ensures r == Some(MsgNoExpenses) <==> income != "" && NonNegative(num(income)) && expenses == ""
    ensures r == Some(MsgBadExpenses) <==>
      income != "" && NonNegative(num(income)) && expenses != "" && !NonNegative(num(expenses))
    ensures r == Some(MsgNoDependents) <==>
      income != "" && NonNegative(num(income)) && expenses != "" && NonNegative(num(expenses)) && dependents == ""
    ensures r == Some(MsgBadDependents) <==>
      income != "" && NonNegative(num(income)) && expenses != "" && NonNegative(num(expenses)) &&
      dependents != "" && !NonNegativeInteger(num(dependents))
  {
    if income == "" then Some(MsgNoIncome)
    else if !NonNegative(num(income)) then Some(MsgBadIncome)
    else if expenses == "" then Some(MsgNoExpenses)
    else if !NonNegative(num(expenses)) then Some(MsgBadExpenses)
    else if dependents == "" then Some(MsgNoDependents)
    else if !NonNegativeInteger(num(dependents)) then Some(MsgBadDependents)
    else None
  }

  /** The first failure among the groups in order, or None. */
  function FirstOf(a: Option<string>, b: Option<string>): (r: Option<string>)
    ensures r == None <==> a == None && b == None
    ensures a != None ==> r == a
  {
    if a.Some? then a else b
  }

  /**
   * `validate`: DNI, names, email, phone, profile fields, amounts, and
   * last the authenticated user; the first failing check's message, or None.
   */
  function Validate(f: ClientForm, userId: Option<string>, num: string -> Option<real>): (r: Option<string>)
    ensures r == None <==>
      && CheckDni(Trim(f.dni)) == None && CheckNames(Trim(f.names), Trim(f.lastNames)) == None
      && CheckEmail(Trim(f.email)) == None && CheckPhone(Trim(f.phone)) == None && CheckProfile(f) == None
      && CheckAmounts(Trim(f.monthlyIncome), Trim(f.monthlyExpenses), Trim(f.dependents), num) == None
      && HasUser(userId)
    ensures r != Some(MsgPhoneNegative)
  {
    FirstOf(CheckDni(Trim(f.dni)),
    FirstOf(CheckNames(Trim(f.names), Trim(f.lastNames)),
    FirstOf(CheckEmail(Trim(f.email)),
    FirstOf(CheckPhone(Trim(f.phone)),
    FirstOf(CheckProfile(f),
    FirstOf(CheckAmounts(Trim(f.monthlyIncome), Trim(f.monthlyExpenses), Trim(f.dependents), num),
            if HasUser(userId) then None else Some(MsgNoUser)))))))
  }

  /** An accepted form: an 8-digit DNI, letter-only names, a well-formed email, a phone of six or more digits, usable amounts and a user. */
  lemma AcceptedForm(f: ClientForm, userId: Option<string>, num: string -> Option<real>)
    requires Validate(f, userId, num) == None
    ensures |Trim(f.dni)| == 8 && AllDigits(Trim(f.dni))
    ensures OnlyLetters(Trim(f.names)) && OnlyLetters(Trim(f.lastNames))
    ensures EmailShape(Trim(f.email))
    ensures AllDigits(Trim(f.phone)) && |Trim(f.phone)| >= 6
    ensures NonNegative(num(Trim(f.monthlyIncome))) && NonNegative(num(Trim(f.monthlyExpenses)))
    ensures NonNegativeInteger(num(Trim(f.dependents)))
    ensures HasUser(userId)
  {
  }

  /** The DNI is reported before anything else that is wrong with the form. */
  lemma DniReportedFirst(f: ClientForm, userId: Option<string>, num: string -> Option<real>)
    requires CheckDni(Trim(f.dni)) != None
    ensures Validate(f, userId, num) == CheckDni(Trim(f.dni))
  {
  }

  /** A missing user is reported only once every field check has passed. */
  lemma UserCheckedLast(f: ClientForm, userId: Option<string>, num: string -> Option<real>)
    requires !HasUser(userId)
    ensures Validate(f, userId, num) == Some(MsgNoUser) <==>
      && CheckDni(Trim(f.dni)) == None && CheckNames(Trim(f.names), Trim(f.lastNames)) == None
      && CheckEmail(Trim(f.email)) == None && CheckPhone(Trim(f.phone)) == None && CheckProfile(f) == None
      && CheckAmounts(Trim(f.monthlyIncome), Trim(f.monthlyExpenses), Trim(f.dependents), num) == None
  {
  }

  /** The record handed to `onSave`. */
  datatype ClientPayload = ClientPayload(
    id: Option<int>, userId: string, dni: string, names: string, lastNames: string, email: string,
    phone: string, residence: string, occupation: string, incomeRange: string, educationLevel: string,
    monthlyIncome: Option<real>, monthlyExpenses: Option<real>, dependents: Option<real>)

  datatype Submission = ShowError(msg: string) | Save(payload: ClientPayload)

  /** `submit`: the validation message, or the payload with every text field trimmed. */
  function Submit(editingId: Option<int>, f: ClientForm, userId: Option<string>, num: string -> Option<real>)
    : (s: Submission)
    ensures s.Save? <==> Validate(f, userId, num) == None
    ensures s.ShowError? ==> Validate(f, userId, num) == Some(s.msg)
    ensures s.Save? ==>
      && s.payload.id == editingId && s.payload.userId == userId.value && userId.value != ""
      && s.payload.dni == Trim(f.dni) && |s.payload.dni| == 8
      && s.payload.names == Trim(f.names) && s.payload.lastNames == Trim(f.lastNames)
      && s.payload.email == Trim(f.email) && EmailShape(s.payload.email)
      && s.payload.phone == Trim(f.phone)
      && s.payload.residence == Trim(f.residence) && s.payload.occupation == Trim(f.occupation)
      && s.payload.incomeRange == Trim(f.incomeRange) && s.payload.educationLevel == Trim(f.educationLevel)
      && s.payload.monthlyIncome == num(Trim(f.monthlyIncome)) && NonNegative(s.payload.monthlyIncome)
      && s.payload.monthlyExpenses == num(Trim(f.monthlyExpenses)) && NonNegative(s.payload.monthlyExpenses)
      && s.payload.dependents == num(Trim(f.dependents)) && NonNegativeInteger(s.payload.dependents)
  {
    var v := Validate(f, userId, num);
    if v.Some? then ShowError(v.value)
    else
      AcceptedForm(f, userId, num);
      Save(ClientPayload(
        editingId, userId.value, Trim(f.dni), Trim(f.names), Trim(f.lastNames), Trim(f.email),
        Trim(f.phone), Trim(f.residence), Trim(f.occupation), Trim(f.incomeRange), Trim(f.educationLevel),
        num(Trim(f.monthlyIncome)), num(Trim(f.monthlyExpenses)), num(Trim(f.dependents))))
  }
}
