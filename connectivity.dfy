/**
 * The `connected` flag as a function of what has happened to the provider.
 * Every send, and every handler that acts, is one exchange; some exchanges
 * set the flag, the others leave it alone, and the last one that set it wins.
 */
module Connectivity {
  import opened Wrappers

  datatype Exchange =
    | Rejected     // `send` found no request body and reported it without sending
    | Dispatched   // the body was handed to the transport without error
    | Unreachable  // the transport's send threw
    | Answered     // the query response handler completed
    | TimedOut     // the timeout handler fired

  /** The value an exchange writes into `connected`, or None if it writes nothing. */
  function Setting(e: Exchange): (r: Option<bool>)
    ensures r == Some(true) <==> e == Answered
    ensures r == Some(false) <==> e == Unreachable || e == TimedOut
  {
    match e
    case Answered => Some(true)
    case Unreachable => Some(false)
    case TimedOut => Some(false)
    case _ => None
  }

  /** The flag after the exchanges of `h`, applied in order from `c`. */
  function ConnectedAfter(c: bool, h: seq<Exchange>): bool
    decreases |h|
  {
    if h == [] then c else ConnectedAfter(Setting(h[0]).GetOr(c), h[1..])
  }

  /** The value written by the latest exchange of `h` that writes one. */
  function LastSetting(h: seq<Exchange>): Option<bool>
    decreases |h|
  {
    if h == [] then None
    else match Setting(h[|h| - 1])
      case Some(b) => Some(b)
      case None => LastSetting(h[..|h| - 1])
  }

  /** Exchange `i` of `h` writes the flag and no later exchange does. */
  ghost predicate IsLastSetting(h: seq<Exchange>, i: int)
  {
    0 <= i < |h| && Setting(h[i]).Some? &&
    forall j :: i < j < |h| ==> Setting(h[j]).None?
  }

  /** One more exchange acts on the flag as it stands. */
  lemma {:induction false} ConnectedAfterSnoc(c: bool, h: seq<Exchange>, e: Exchange)
    ensures ConnectedAfter(c, h + [e]) == Setting(e).GetOr(ConnectedAfter(c, h))
    decreases |h|
  {
    if h == [] {
      assert [] + [e] == [e];
      assert [e][1..] == [];
    } else {
      assert (h + [e])[0] == h[0];
      assert (h + [e])[1..] == h[1..] + [e];
      ConnectedAfterSnoc(Setting(h[0]).GetOr(c), h[1..], e);
    }
  }

  /** Applying the exchanges in order gives the last written value, or `c` if none writes. */
  lemma {:induction false} ConnectedAfterIsLastSetting(c: bool, h: seq<Exchange>)
    ensures ConnectedAfter(c, h) == LastSetting(h).GetOr(c)
    decreases |h|
  {
    if h != [] {
      var init, last := h[..|h| - 1], h[|h| - 1];
      assert h == init + [last];
      ConnectedAfterSnoc(c, init, last);
      ConnectedAfterIsLastSetting(c, init);
    }
  }

  /** LastSetting is None exactly when no exchange writes the flag. */
  lemma {:induction false} LastSettingNone(h: seq<Exchange>)
    ensures LastSetting(h).None? <==> forall i :: 0 <= i < |h| ==> Setting(h[i]).None?
    decreases |h|
  {
    if h != [] {
      var init := h[..|h| - 1];
      LastSettingNone(init);
      assert forall i :: 0 <= i < |init| ==> init[i] == h[i];
    }
  }

  /** LastSetting is the value written by the last exchange that writes one. */
  lemma {:induction false} LastSettingAt(h: seq<Exchange>, i: int)
    requires IsLastSetting(h, i)
    ensures LastSetting(h) == Setting(h[i])
    decreases |h|
  {
    if i < |h| - 1 {
      var init := h[..|h| - 1];
      assert Setting(h[|h| - 1]).None?;
      assert forall j :: 0 <= j < |init| ==> init[j] == h[j];
      LastSettingAt(init, i);
    }
  }

  /**
   * Starting disconnected, the flag is set exactly when some completed
   * response is the last exchange that wrote it: no timeout and no failed
   * send came after it.
   */
  lemma ConnectedIffLastAnswered(h: seq<Exchange>)
    ensures ConnectedAfter(false, h) <==> exists i :: IsLastSetting(h, i) && h[i] == Answered
  {
    ConnectedAfterIsLastSetting(false, h);
    if i :| IsLastSetting(h, i) && h[i] == Answered {
      LastSettingAt(h, i);
    }
    if ConnectedAfter(false, h) {
      LastSettingNone(h);
      var k :| 0 <= k < |h| && Setting(h[k]).Some?;
      var i := LatestSetting(h, k);
      LastSettingAt(h, i);
    }
  }

  /** The latest exchange at or after `k` that writes the flag. */
  lemma {:induction false} LatestSetting(h: seq<Exchange>, k: int) returns (i: int)
    requires 0 <= k < |h| && Setting(h[k]).Some?
    ensures k <= i && IsLastSetting(h, i)
    decreases |h| - k
  {
    if j :| k < j < |h| && Setting(h[j]).Some? {
      i := LatestSetting(h, j);
    } else {
      i := k;
    }
  }
}
