/** The two hinged bridges of level 3 (Sample_GL3_2D.cpp, struct Bridge,
    toggleBridge 979-1005 and the nudges of Check_Block_Pos 582-585, 607-610). */
module Bridges {

  /** A bridge owns the tiles (x0, z0) and (x1, z1). `status` is the source's
      `bridge_status`: true while the hinge rises toward 90, false while it
      falls toward 0. */
  datatype Bridge = Bridge(x0: int, z0: int, x1: int, z1: int, angle: int, status: bool)

  /** A hinge angle between 0 and 90 in steps of 5. */
  predicate InRange(a: int) { 0 <= a <= 90 && a % 5 == 0 }

  /** The states a bridge takes once it is instantiated: a rising bridge is
      below 90, a falling one above 0. */
  predicate Ok(br: Bridge) {
    InRange(br.angle) && (br.status ==> br.angle < 90) && (!br.status ==> br.angle > 0)
  }

  /** The nudge a block on a switch gives: 0 becomes 5, 90 becomes 85, any
      other angle stays. */
  function Nudge(a: int): (r: int)
    ensures InRange(a) ==> InRange(r) && 0 < r < 90
    ensures a != 0 && a != 90 ==> r == a
    ensures a == 0 || a == 90 ==> r != a && -5 <= r - a <= 5
  {
    if a == 0 then 5 else if a == 90 then 85 else a
  }

  /** toggleBridge moves the hinge on this tick. */
  predicate Moving(br: Bridge) {
    (br.status && br.angle > 0) || (!br.status && br.angle < 90)
  }

  /** The hinge after one call of toggleBridge. */
  function Toggle(br: Bridge): Bridge {
    if br.status && br.angle > 0 then
      var a := br.angle + 5;
      if a == 90 then br.(angle := a, status := false) else br.(angle := a)
    else if !br.status && br.angle < 90 then
      var a := br.angle - 5;
      if a == 0 then br.(angle := a, status := true) else br.(angle := a)
    else br
  }

  /** The call ends the movement: the owned tiles are rewritten. */
  predicate Arrives(br: Bridge) {
    Moving(br) && Toggle(br).status != br.status
  }

  /** The tile kind written to both owned tiles on arrival: 0 on reaching 90,
      1 on reaching 0. */
  function ArrivalTile(br: Bridge): int {
    if br.status then 0 else 1
  }

  /** `hang` after the call: set while the hinge moves, cleared on arrival. */
  function ToggleHang(br: Bridge, hang: bool): bool {
    if Moving(br) then !Arrives(br) else hang
  }

  /** The kind of tile c after the call, given its kind t before. */
  function ToggledTile(br: Bridge, c: (int, int), t: int): int {
    if Arrives(br) && (c == (br.x0, br.z0) || c == (br.x1, br.z1)) then ArrivalTile(br) else t
  }

  /** toggleBridge keeps an instantiated bridge valid and, unless it is at
      rest, moves it by one step of 5; it writes 0 and clears the status
      exactly when it reaches 90, writes 1 and sets the status exactly when it
      reaches 0. */
  lemma ToggleStep(br: Bridge)
    requires Ok(br)
    ensures Ok(Toggle(br))
    ensures Moving(br) ==> Toggle(br).angle - br.angle in {-5, 5}
    ensures !Moving(br) ==> Toggle(br) == br
    ensures Toggle(br).x0 == br.x0 && Toggle(br).z0 == br.z0
         && Toggle(br).x1 == br.x1 && Toggle(br).z1 == br.z1
    ensures Arrives(br) && ArrivalTile(br) == 0 <==> Moving(br) && Toggle(br).angle == 90
    ensures Arrives(br) && ArrivalTile(br) == 1 <==> Moving(br) && Toggle(br).angle == 0
    ensures Toggle(br).status <==> (if Arrives(br) then !br.status else br.status)
  {
  }

  /** A bridge at rest (0 with status true, 90 with status false) stays put;
      anywhere else inside [0, 90] it moves. */
  lemma RestIsFixed(br: Bridge)
    requires InRange(br.angle)
    ensures !Moving(br) <==> (br.angle == 0 && br.status) || (br.angle == 90 && !br.status)
    ensures !Moving(br) ==> Toggle(br) == br && ToggleHang(br, false) == false
  {
  }

  /** n calls of toggleBridge. */
  function ToggleN(br: Bridge, n: nat): Bridge
    decreases n
  {
    if n == 0 then br else ToggleN(Toggle(br), n - 1)
  }

  /** A rising bridge n steps below 90 keeps rising with no arrival for n - 1
      calls and arrives at 90, status false, on the n-th. */
  lemma {:induction false} Closes(br: Bridge, n: nat)
    requires br.status && 1 <= n <= 17 && br.angle == 90 - 5 * n
    ensures ToggleN(br, n) == br.(angle := 90, status := false)
    ensures forall k :: 0 <= k < n - 1 ==> !Arrives(ToggleN(br, k))
    decreases n
  {
    if n > 1 {
      Closes(Toggle(br), n - 1);
      forall k | 0 <= k < n - 1
        ensures !Arrives(ToggleN(br, k))
      {
        if k > 0 {
          assert ToggleN(br, k) == ToggleN(Toggle(br), k - 1);
        }
      }
    }
  }

  /** A falling bridge n steps above 0 keeps falling with no arrival for n - 1
      calls and arrives at 0, status true, on the n-th. */
  lemma {:induction false} Opens(br: Bridge, n: nat)
    requires !br.status && 1 <= n <= 17 && br.angle == 5 * n
    ensures ToggleN(br, n) == br.(angle := 0, status := true)
    ensures forall k :: 0 <= k < n - 1 ==> !Arrives(ToggleN(br, k))
    decreases n
  {
    if n > 1 {
      Opens(Toggle(br), n - 1);
      forall k | 0 <= k < n - 1
        ensures !Arrives(ToggleN(br, k))
      {
        if k > 0 {
          assert ToggleN(br, k) == ToggleN(Toggle(br), k - 1);
        }
      }
    }
  }

  /** The full cycle: a bridge instantiated at 5 rising reaches 90 after 17
      calls; nudged there to 85 it reaches 0 after 17 more; nudged there to 5
      it is back where it started. */
  lemma NudgeCycle(br: Bridge)
    requires br.status && br.angle == 5
    ensures ToggleN(br, 17) == br.(angle := 90, status := false)
    ensures var closed := ToggleN(br, 17);
      ToggleN(closed.(angle := Nudge(closed.angle)), 17) == br.(angle := 0, status := true)
    ensures var closed := ToggleN(br, 17);
      var lowered := ToggleN(closed.(angle := Nudge(closed.angle)), 17);
      lowered.(angle := Nudge(lowered.angle)) == br
  {
    Closes(br, 17);
    var closed := ToggleN(br, 17);
    Opens(closed.(angle := Nudge(closed.angle)), 17);
  }
}
