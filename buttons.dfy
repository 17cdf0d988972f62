/** The two push buttons as recorded input streams. A stream lists the levels
    successive reads of the pin return (`true` = the pin reads 1); once it is
    exhausted every further read returns the idle level its pull resistor
    gives. The stop button is pulled up (idle 1, pressed 0), the start button
    pulled down (idle 0, pressed 1). */
module Buttons {

  /** The level one read returns and the readings left after it. */
  datatype Reading = Reading(high: bool, rest: seq<bool>)

  function Read(s: seq<bool>, idle: bool): (r: Reading)
    ensures s == [] ==> r == Reading(idle, [])
    ensures s != [] ==> r.high == s[0] && r.rest == s[1..]
  {
    if s == [] then Reading(idle, []) else Reading(s[0], s[1..])
  }

  /** The release wait of `check_stop`: `while button_stop.value() == 0: sleep`.
      It reads until one read returns 1 (an exhausted stream reads 1) and
      yields the readings left after that read. */
  function AfterRelease(s: seq<bool>): (rest: seq<bool>)
    ensures |rest| <= |s| && rest == s[|s| - |rest|..]
    // every reading consumed before the last one was low
    ensures forall i :: 0 <= i < |s| - |rest| - 1 ==> !s[i]
    // the last reading consumed was the release, or the stream ran out while still pressed
    ensures (|rest| < |s| && s[|s| - |rest| - 1])
         || (rest == [] && forall i :: 0 <= i < |s| ==> !s[i])
    decreases |s|
  {
    if s == [] then []
    else if s[0] then s[1..]
    else AfterRelease(s[1..])
  }

  /** The outcome of one stop poll: whether the button was pressed, and the
      readings left once `check_stop`'s release wait (if any) is over. */
  datatype Poll = Poll(pressed: bool, rest: seq<bool>)

  function PollStop(s: seq<bool>): (p: Poll)
  {
    var first := Read(s, true);
    if first.high then Poll(false, first.rest)
    else Poll(true, AfterRelease(first.rest))
  }

  /** A poll presses exactly on a low first reading, consumes only that reading
      when it does not press, and otherwise consumes up to and including the
      first high reading after it. */
  lemma {:induction false} PollStopReads(s: seq<bool>)
    ensures PollStop(s).pressed <==> (s != [] && !s[0])
    ensures !PollStop(s).pressed ==> PollStop(s).rest == (if s == [] then [] else s[1..])
    ensures PollStop(s).pressed ==>
              var k := |s| - |PollStop(s).rest|;
              1 <= k <= |s| && PollStop(s).rest == s[k..]
              && (forall i :: 0 <= i < k - 1 ==> !s[i])
              && (s[k - 1] || (k == |s| && forall i :: 0 <= i < |s| ==> !s[i]))
  {
    if s != [] && !s[0] {
      var rest := AfterRelease(s[1..]);
      var k := |s| - |rest|;
      assert s[1..][(|s| - 1) - |rest|..] == s[k..];
      forall i | 0 <= i < k - 1 ensures !s[i] {
        if i > 0 { assert s[i] == s[1..][i - 1]; }
      }
      if !s[k - 1] {
        assert k > 1 ==> s[k - 1] == s[1..][k - 2];
        forall i | 0 <= i < |s| ensures !s[i] {
          if i > 0 { assert s[i] == s[1..][i - 1]; }
        }
      }
    }
  }
}
