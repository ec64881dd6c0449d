/**
 * The settings page: the checks and field reset of `changePassword`, the
 * confirmation guard of `deleteAllSimulations`, the avatar `initials`, and
 * the clamp on the default term. The auth update and the table deletes are
 * described by their effect on a model of the stored data.
 */
module Settings {
  import opened Wrappers
  import opened Strings
  import opened Lists

  const MsgNoPassword: string := "Escribe la nueva contraseña."
  const MsgTooShort: string := "Mínimo 8 caracteres."
  const MsgMismatch: string := "Las contraseñas no coinciden."
  const MsgNoUpper: string := "Debe tener al menos una mayúscula."
  const MsgNoDigit: string := "Debe tener al menos un número."
  const MsgNoSpecial: string := "Debe tener al menos un carácter especial."
  const MsgPasswordChanged: string := "Contraseña actualizada correctamente."

  /** The checks of `changePassword`, first failing message first. */
  function PasswordProblem(newPwd: string, confirmPwd: string): (r: Option<string>)
    ensures r == None <==>
      |newPwd| >= 8 && newPwd == confirmPwd && Any(newPwd, IsUpperAscii) && Any(newPwd, IsDigit) && Any(newPwd, IsSpecial)
    ensures r == Some(MsgNoPassword) <==> newPwd == ""
    ensures r == Some(MsgTooShort) <==> 0 < |newPwd| < 8
    ensures r == Some(MsgMismatch) <==> |newPwd| >= 8 && newPwd != confirmPwd
    ensures r == Some(MsgNoUpper) <==> |newPwd| >= 8 && newPwd == confirmPwd && !Any(newPwd, IsUpperAscii)
    ensures r == Some(MsgNoDigit) <==>
      |newPwd| >= 8 && newPwd == confirmPwd && Any(newPwd, IsUpperAscii) && !Any(newPwd, IsDigit)
    ensures r == Some(MsgNoSpecial) <==>
      |newPwd| >= 8 && newPwd == confirmPwd && Any(newPwd, IsUpperAscii) && Any(newPwd, IsDigit) && !Any(newPwd, IsSpecial)
  {
    if newPwd == "" then Some(MsgNoPassword)
    else if |newPwd| < 8 then Some(MsgTooShort)
    else if newPwd != confirmPwd then Some(MsgMismatch)
    else if !Any(newPwd, IsUpperAscii) then Some(MsgNoUpper)
    else if !Any(newPwd, IsDigit) then Some(MsgNoDigit)
    else if !Any(newPwd, IsSpecial) then Some(MsgNoSpecial)
    else None
  }

  /** No lowercase letter is demanded: a password of capitals, a digit and a symbol is accepted. */
  lemma LowercaseNotRequired(p: string)
    requires |p| >= 8 && forall k :: 0 <= k < |p| ==> !IsLowerAscii(p[k])
    requires IsUpperAscii(p[0]) && IsDigit(p[1]) && IsSpecial(p[2])
    ensures PasswordProblem(p, p) == None && !Any(p, IsLowerAscii)
  {
  }

  datatype Notice = Ok(text: string) | Err(text: string)

  /** The security tab's fields and the passwords sent to the auth service. */
  class SecurityTab {
    var currentPwd: string
    var newPwd: string
    var confirmPwd: string
    var pwdMsg: Option<Notice>
    var updates: seq<string>

    constructor()
      ensures currentPwd == "" && newPwd == "" && confirmPwd == "" && pwdMsg == None && updates == []
    {
      currentPwd, newPwd, confirmPwd := "", "", "";
      pwdMsg := None;
      updates := [];
    }

    /**
     * `changePassword`. `updateError` is what the update reports. The
     * current password is never consulted.
     */
    method ChangePassword(updateError: Option<string>)
      modifies this
      ensures var p := PasswordProblem(old(newPwd), old(confirmPwd));
        if p.Some? then
          pwdMsg == Some(Err(p.value)) && updates == old(updates) &&
          unchanged(this`currentPwd, this`newPwd, this`confirmPwd)
        else
          && updates == old(updates) + [old(newPwd)]
          && (updateError.Some? ==>
                pwdMsg == Some(Err(updateError.value)) && unchanged(this`currentPwd, this`newPwd, this`confirmPwd))
          && (updateError.None? ==>
                pwdMsg == Some(Ok(MsgPasswordChanged)) && currentPwd == "" && newPwd == "" && confirmPwd == "")
    {
      pwdMsg := None;
      var p := PasswordProblem(newPwd, confirmPwd);
      if p.Some? {
        pwdMsg := Some(Err(p.value));
        return;
      }
      updates := updates + [newPwd];
      if updateError.Some? {
        pwdMsg := Some(Err(updateError.value));
      } else {
        pwdMsg := Some(Ok(MsgPasswordChanged));
        currentPwd, newPwd, confirmPwd := "", "", "";
      }
    }
  }

  /** Every password ever sent to the auth service satisfies the page's rules. */
  lemma SentPasswordsFollowRules(p: string, confirm: string)
    requires PasswordProblem(p, confirm) == None
    ensures |p| >= 8 && p == confirm
    ensures (exists k :: 0 <= k < |p| && IsUpperAscii(p[k])) && (exists k :: 0 <= k < |p| && IsDigit(p[k]))
    ensures exists k :: 0 <= k < |p| && IsSpecial(p[k])
  {
  }

  /** A stored simulation and its owner, and a stored schedule row and its simulation. */
  datatype StoredSimulation = StoredSimulation(id: int, owner: string)
  datatype StoredScheduleRow = StoredScheduleRow(simulationId: int, n: int)

  /** The ids of the user's simulations. */
  function OwnedIds(sims: seq<StoredSimulation>, userId: string): (ids: seq<int>)
    ensures |ids| <= |sims|
    ensures forall k :: 0 <= k < |sims| && sims[k].owner == userId ==> sims[k].id in ids
    ensures forall i :: i in ids ==> exists k :: 0 <= k < |sims| && sims[k].owner == userId && sims[k].id == i
  {
    if |sims| == 0 then []
    else
      var rest := OwnedIds(sims[1..], userId);
      assert forall i :: i in rest ==> exists k :: 0 <= k < |sims| && sims[k].owner == userId && sims[k].id == i by {
        forall i | i in rest
          ensures exists k :: 0 <= k < |sims| && sims[k].owner == userId && sims[k].id == i
        {
          var k :| 0 <= k < |sims| - 1 && sims[1..][k].owner == userId && sims[1..][k].id == i;
          assert sims[k + 1] == sims[1..][k];
        }
      }
      (if sims[0].owner == userId then [sims[0].id] else []) + rest
  }

  /** The data tab: the confirmation text and the stored tables it clears. */
  class DataTab {
    const userId: string
    var deleteConfirm: string
    var simulations: seq<StoredSimulation>
    var scheduleRows: seq<StoredScheduleRow>

    constructor(userId0: string, sims: seq<StoredSimulation>, rows: seq<StoredScheduleRow>)
      ensures userId == userId0 && deleteConfirm == "" && simulations == sims && scheduleRows == rows
    {
      userId := userId0;
      deleteConfirm := "";
      simulations, scheduleRows := sims, rows;
    }

    /**
     * `deleteAllSimulations`: nothing happens unless the confirmation reads
     * exactly "ELIMINAR"; then the user's schedule rows and simulations are
     * deleted and the confirmation is cleared.
     */
    method DeleteAllSimulations()
      modifies this
      ensures old(deleteConfirm) != "ELIMINAR" ==>
        unchanged(this`deleteConfirm, this`simulations, this`scheduleRows)
      ensures old(deleteConfirm) == "ELIMINAR" ==>
        var ids := OwnedIds(old(simulations), userId);
        && deleteConfirm == ""
        && simulations == Filter(old(simulations), (s: StoredSimulation) => s.owner != userId)
        && scheduleRows == Filter(old(scheduleRows), (r: StoredScheduleRow) => r.simulationId !in ids)
    {
      if deleteConfirm != "ELIMINAR" {
        return;
      }
      var ids := OwnedIds(simulations, userId);
      var keepSim := (s: StoredSimulation) => s.owner != userId;
      var keepRow := (r: StoredScheduleRow) => r.simulationId !in ids;
      if |ids| > 0 {
        scheduleRows := Filter(scheduleRows, keepRow);
        simulations := Filter(simulations, keepSim);
      } else {
        FilterKeepsAll(scheduleRows, keepRow);
        FilterKeepsAll(simulations, keepSim);
      }
      deleteConfirm := "";
    }
  }

  /** After the deletion no simulation of the user and no row of one is left. */
  lemma DeletionLeavesNothingOwned(sims: seq<StoredSimulation>, rows: seq<StoredScheduleRow>, userId: string)
    ensures var ids := OwnedIds(sims, userId);
      var sims2 := Filter(sims, (s: StoredSimulation) => s.owner != userId);
      var rows2 := Filter(rows, (r: StoredScheduleRow) => r.simulationId !in ids);
      && (forall k :: 0 <= k < |sims2| ==> sims2[k].owner != userId)
      && (forall k, j :: 0 <= k < |rows2| && 0 <= j < |sims| && sims[j].owner == userId ==> rows2[k].simulationId != sims[j].id)
  {
  }

  /** The avatar initials: first letters of the names, else of the email, else "U", upper-cased. */
  function Initials(firstName: string, lastName: string, email: string): (r: string)
    ensures 1 <= |r| <= 2
    ensures firstName != "" ==> r[0] == UpperChar(firstName[0])
    ensures firstName == "" && lastName != "" ==> r == [UpperChar(lastName[0])]
    ensures firstName == "" && lastName == "" && email != "" ==> r == [UpperChar(email[0])]
    ensures firstName == "" && lastName == "" && email == "" ==> r == "U"
    ensures firstName != "" && lastName != "" ==> |r| == 2 && r[1] == UpperChar(lastName[0])
  {
    var a := if firstName == "" then "" else [firstName[0]];
    var b := if lastName == "" then "" else [lastName[0]];
    var names := ToUpper(a + b);
    if names != "" then names
    else if email != "" then ToUpper([email[0]])
    else "U"
  }

  /** `Math.min(25, Math.max(5, Number(v)))`; NaN (None) stays NaN. */
  function ClampDefaultTerm(v: Option<real>): (r: Option<real>)
    ensures r.None? <==> v.None?
    ensures r.Some? ==> 5.0 <= r.value <= 25.0
    ensures v.Some? && 5.0 <= v.value <= 25.0 ==> r == v
    ensures v.Some? && v.value < 5.0 ==> r == Some(5.0)
    ensures v.Some? && v.value > 25.0 ==> r == Some(25.0)
  {
    if v.None? then None
    else Some(if v.value < 5.0 then 5.0 else if v.value > 25.0 then 25.0 else v.value)
  }

  /** Clamping twice is clamping once. */
  lemma ClampDefaultTermIdempotent(v: Option<real>)
    ensures ClampDefaultTerm(ClampDefaultTerm(v)) == ClampDefaultTerm(v)
  {
  }
}
