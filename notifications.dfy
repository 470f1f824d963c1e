/**
 * `NotificationSync` (core/notifications.py): mirrors the phone's
 * notifications as desktop toasts. The poll thread runs `dumpsys
 * notification` every five seconds; the model covers what it does with one
 * dump, `_parse_and_notify`, and the `start`/`stop` switches. A toast is
 * recorded rather than shown.
 */
module Notifications {
  import opened Wrappers
  import opened Text

  /** A desktop toast: titled with a phone emoji and the package, the ticker text as message. */
  datatype Toast = Toast(pkg: string, message: string)

  /** The duplicate-suppression key of a notification, `f"{pkg}:{text}"`. */
  function Key(pkg: string, text: string): string {
    pkg + ":" + text
  }

  function KeyOf(t: Toast): string {
    Key(t.pkg, t.message)
  }

  /** The package a scan starts with, before any `pkg=` line. */
  const UnknownPkg := "Unknown"

  /** The key cache is cleared once it grows past this many keys. */
  const MaxSeenKeys := 50

  // ---------------------------------------------------------------------
  // `re.search(r'pkg=([a-zA-Z0-9.]+)', line)`

  predicate IsPkgChar(c: char) {
    ('a' <= c <= 'z') || ('A' <= c <= 'Z') || ('0' <= c <= '9') || c == '.'
  }

  /** The run of package-name characters starting at `i`. */
  function PkgRun(s: string, i: nat): (n: nat)
    requires i <= |s|
    ensures i + n <= |s|
    ensures forall k :: i <= k < i + n ==> IsPkgChar(s[k])
    ensures i + n == |s| || !IsPkgChar(s[i + n])
    decreases |s| - i
  {
    if i < |s| && IsPkgChar(s[i]) then 1 + PkgRun(s, i + 1) else 0
  }

  /** The pattern matches at `j`: `pkg=` followed by at least one name character. */
  predicate PkgMatchAt(s: string, j: nat) {
    j + 5 <= |s| && s[j..j + 4] == "pkg=" && IsPkgChar(s[j + 4])
  }

  /** The leftmost position from `from` on where the pattern matches. */
  function FirstPkgMatch(s: string, from: nat): (k: Option<nat>)
    requires from <= |s|
    ensures k.Some? ==> from <= k.value && PkgMatchAt(s, k.value)
    ensures k.Some? ==> forall j :: from <= j < k.value ==> !PkgMatchAt(s, j)
    ensures k.None? ==> forall j :: from <= j <= |s| ==> !PkgMatchAt(s, j)
    decreases |s| - from
  {
    if PkgMatchAt(s, from) then Some(from)
    else if from == |s| then None
    else FirstPkgMatch(s, from + 1)
  }

  /**
   * The group of the leftmost match: the whole run of name characters after
   * the first `pkg=` that is followed by one.
   */
  function FindPkg(line: string): (p: Option<string>)
    ensures p.Some? ==> p.value != [] && forall i :: 0 <= i < |p.value| ==> IsPkgChar(p.value[i])
    ensures p.Some? ==> Contains(line, "pkg=" + p.value)
    ensures p.None? <==> forall j :: 0 <= j <= |line| ==> !PkgMatchAt(line, j)
    ensures p.Some? ==> exists j: nat :: j <= |line| && PkgGroupAt(line, p.value, j)
  {
    match FirstPkgMatch(line, 0)
    case None => None
    case Some(j) =>
      GroupAtFacts(line, j);
      Some(GroupAt(line, j))
  }

  /** The run of name characters after a `pkg=` at `j`. */
  function GroupAt(line: string, j: nat): string
    requires j + 4 <= |line|
  {
    line[j + 4..j + 4 + PkgRun(line, j + 4)]
  }

  lemma GroupAtFacts(line: string, j: nat)
    requires PkgMatchAt(line, j)
    ensures GroupAt(line, j) != [] && forall i :: 0 <= i < |GroupAt(line, j)| ==> IsPkgChar(GroupAt(line, j)[i])
    ensures PkgGroupAt(line, GroupAt(line, j), j) && Contains(line, "pkg=" + GroupAt(line, j))
  {
    var e := j + 4 + PkgRun(line, j + 4);
    PkgPrefix(line, j, e);
    assert OccursAt(line, "pkg=" + line[j + 4..e], j);
  }

  /** `pkg=` at `j`, then `p`, and no further name character: a greedy `[a-zA-Z0-9.]+` stops there. */
  predicate PkgGroupAt(line: string, p: string, j: nat) {
    OccursAt(line, "pkg=" + p, j) && (j + 4 + |p| == |line| || !IsPkgChar(line[j + 4 + |p|]))
  }

  /**
   * `re.search(r'pkg=([a-zA-Z0-9.]+)', line).group(1)`: the whole run of
   * name characters after the leftmost `pkg=` that is followed by one.
   */
  lemma {:induction false} FindPkgLeftmost(line: string, p: string, k: nat)
    requires p != [] && (forall i :: 0 <= i < |p| ==> IsPkgChar(p[i])) && PkgGroupAt(line, p, k)
    requires forall j :: 0 <= j < k ==> !PkgMatchAt(line, j)
    ensures FindPkg(line) == Some(p)
  {
    var e := k + 4 + |p|;
    PkgGroupFacts(line, p, k);
    FirstPkgMatchAt(line, k);
    PkgRunUpTo(line, k + 4, e);
    FindPkgIs(line, k, e);
  }

  /** The group is the run of name characters after the leftmost match. */
  lemma FindPkgIs(line: string, k: nat, e: nat)
    requires FirstPkgMatch(line, 0) == Some(k) && k + 4 <= e <= |line| && PkgRun(line, k + 4) == e - k - 4
    ensures FindPkg(line) == Some(line[k + 4..e])
  {
    assert GroupAt(line, k) == line[k + 4..e];
  }

  /** A match with none before it is the leftmost one. */
  lemma FirstPkgMatchAt(line: string, k: nat)
    requires PkgMatchAt(line, k) && forall j :: 0 <= j < k ==> !PkgMatchAt(line, j)
    ensures FirstPkgMatch(line, 0) == Some(k)
  {
  }

  /** A group at `k` is a match at `k`, and `p` is the run of name characters it spells. */
  lemma PkgGroupFacts(line: string, p: string, k: nat)
    requires p != [] && (forall i :: 0 <= i < |p| ==> IsPkgChar(p[i])) && PkgGroupAt(line, p, k)
    ensures PkgMatchAt(line, k) && line[k + 4..k + 4 + |p|] == p
    ensures forall t :: k + 4 <= t < k + 4 + |p| ==> IsPkgChar(line[t])
  {
    var e := k + 4 + |p|;
    var w := line[k..e];
    assert w == "pkg=" + p;
    assert forall t :: 0 <= t < |w| ==> line[k + t] == w[t];
    assert line[k..k + 4] == "pkg=" by {
      assert forall t :: 0 <= t < 4 ==> line[k..k + 4][t] == w[t] == "pkg="[t];
    }
    assert forall t :: k + 4 <= t < e ==> line[t] == w[t - k] == p[t - k - 4];
  }

  /** A run of name characters that stops at `m` is exactly `m - i` long. */
  lemma PkgRunUpTo(s: string, i: nat, m: nat)
    requires i <= m <= |s|
    requires forall t :: i <= t < m ==> IsPkgChar(s[t])
    requires m == |s| || !IsPkgChar(s[m])
    ensures PkgRun(s, i) == m - i
  {
  }

  lemma PkgPrefix(s: string, j: nat, e: nat)
    requires j + 4 <= e <= |s| && s[j..j + 4] == "pkg="
    ensures s[j..e] == "pkg=" + s[j + 4..e]
  {
    assert s[j..e] == s[j..j + 4] + s[j + 4..e];
  }

  // ---------------------------------------------------------------------
  // One dump.

  /** The ticker text a line announces: what follows `tickerText=`, unless the line says `tickerText=null`. */
  function TickerOf(line: string): Option<string> {
    if Contains(line, "tickerText=") && !Contains(line, "tickerText=null") then
      Some(SecondField(line, "tickerText="))
    else
      None
  }

  /**
   * A line announces a text exactly when it holds `tickerText=` but not
   * `tickerText=null`; the text is what follows the first `tickerText=`, up
   * to the next one or the end of the line.
   */
  lemma TickerOfFacts(line: string)
    ensures TickerOf(line).Some? <==> Contains(line, "tickerText=") && !Contains(line, "tickerText=null")
    ensures TickerOf(line).Some? ==>
      var t := TickerOf(line).value;
      && !Contains(t, "tickerText=")
      && StartsWith(After(line, "tickerText="), t)
  {
    if Contains(line, "tickerText=") {
      SecondFieldFacts(line, "tickerText=");
    }
  }

  /**
   * What one stripped line of the dump tells the scan: the package it names
   * (only looked for when the line holds `pkg=`), and the ticker text it
   * announces.
   */
  datatype LineEvent = LineEvent(pkg: Option<string>, ticker: Option<string>)

  function EventOf(raw: string): (e: LineEvent)
    ensures e.pkg.Some? ==> ':' !in e.pkg.value
  {
    var line := Strip(raw);
    var pkg := if Contains(line, "pkg=") then FindPkg(line) else None;
    assert pkg.Some? ==> forall i :: 0 <= i < |pkg.value| ==> pkg.value[i] != ':';
    LineEvent(pkg, TickerOf(line))
  }

  /** The events of the lines, in order. */
  function Events(lines: seq<string>): (es: seq<LineEvent>)
    ensures |es| == |lines|
    ensures forall i :: 0 <= i < |lines| ==> es[i] == EventOf(lines[i])
  {
    if lines == [] then [] else Events(lines[..|lines| - 1]) + [EventOf(lines[|lines| - 1])]
  }

  /** No line names a package with a colon in it. */
  lemma {:induction false} EventsColonFree(lines: seq<string>)
    ensures ColonFree(Events(lines))
    decreases |lines|
  {
    if lines != [] {
      EventsColonFree(lines[..|lines| - 1]);
      var e := EventOf(lines[|lines| - 1]);
      assert Events(lines) == Events(lines[..|lines| - 1]) + [e];
    }
  }

  predicate ColonFree(es: seq<LineEvent>) {
    forall i :: 0 <= i < |es| && es[i].pkg.Some? ==> ':' !in es[i].pkg.value
  }

  /** What a scan carries from line to line. */
  datatype ScanState = ScanState(pkg: string, seen: set<string>, toasts: seq<Toast>)

  /**
   * A ticker text reaching the current package: toasted unless its key was
   * seen; a new key joins the cache, which is emptied once it holds more
   * than 50 keys.
   */
  function Announce(st: ScanState, ticker: Option<string>): ScanState {
    match ticker
    case None => st
    case Some(text) =>
      var key := Key(st.pkg, text);
      if key in st.seen then st
      else
        var seen := st.seen + {key};
        ScanState(st.pkg, if |seen| > MaxSeenKeys then {} else seen, st.toasts + [Toast(st.pkg, text)])
  }

  /** One line: its package, if any, becomes current; then its ticker text is announced. */
  function Step(st: ScanState, e: LineEvent): ScanState {
    var pkg := if e.pkg.Some? then e.pkg.value else st.pkg;
    Announce(st.(pkg := pkg), e.ticker)
  }

  /** The events of a dump, taken in order from `init`. */
  function Replay(es: seq<LineEvent>, init: ScanState): ScanState
    decreases |es|
  {
    if es == [] then init else Step(Replay(es[..|es| - 1], init), es[|es| - 1])
  }

  /**
   * A line toasts at most once, only when it announces a text whose key
   * under the current package is unseen; that key then joins the cache, or
   * the cache, past 50 keys, is emptied. The package is never changed.
   */
  lemma AnnounceToasts(st: ScanState, ticker: Option<string>)
    ensures var r := Announce(st, ticker);
      && r.pkg == st.pkg
      && (ticker.None? || Key(st.pkg, ticker.value) in st.seen ==> r == st)
      && (ticker.Some? && Key(st.pkg, ticker.value) !in st.seen ==>
            && r.toasts == st.toasts + [Toast(st.pkg, ticker.value)]
            && (r.seen == st.seen + {Key(st.pkg, ticker.value)} || (r.seen == {} && |st.seen| >= MaxSeenKeys)))
  {
    if ticker.Some? && Key(st.pkg, ticker.value) !in st.seen {
      assert |st.seen + {Key(st.pkg, ticker.value)}| == |st.seen| + 1;
    }
  }

  /** A line keeps the cache within 50 keys. */
  lemma AnnounceBound(st: ScanState, ticker: Option<string>)
    requires |st.seen| <= MaxSeenKeys
    ensures |Announce(st, ticker).seen| <= MaxSeenKeys
  {
  }

  lemma ReplayNext(es: seq<LineEvent>, i: nat, init: ScanState)
    requires i < |es|
    ensures Replay(es[..i + 1], init) == Step(Replay(es[..i], init), es[i])
  {
    assert es[..i + 1][..i] == es[..i];
  }

  /** A scan only appends toasts, at most one per line. */
  lemma {:induction false} ReplayExtends(es: seq<LineEvent>, init: ScanState)
    ensures |init.toasts| <= |Replay(es, init).toasts| <= |init.toasts| + |es|
    ensures Replay(es, init).toasts[..|init.toasts|] == init.toasts
    decreases |es|
  {
    if es != [] {
      var prev := Replay(es[..|es| - 1], init);
      ReplayExtends(es[..|es| - 1], init);
      var e := es[|es| - 1];
      AnnounceToasts(prev.(pkg := if e.pkg.Some? then e.pkg.value else prev.pkg), e.ticker);
      var r := Replay(es, init);
      assert r.toasts[..|prev.toasts|] == prev.toasts;
      assert r.toasts[..|init.toasts|] == prev.toasts[..|init.toasts|];
    }
  }

  /** The package names `_parse_and_notify` toasts under never hold a colon. */
  lemma {:induction false} ReplayPkgHasNoColon(es: seq<LineEvent>, init: ScanState)
    requires ':' !in init.pkg && ColonFree(es)
    ensures ':' !in Replay(es, init).pkg
    decreases |es|
  {
    if es != [] {
      var prev := Replay(es[..|es| - 1], init);
      ReplayPkgHasNoColon(es[..|es| - 1], init);
      var e := es[|es| - 1];
      AnnounceToasts(prev.(pkg := if e.pkg.Some? then e.pkg.value else prev.pkg), e.ticker);
    }
  }

  /** The key cache never holds more than 50 keys. */
  lemma {:induction false} ReplayBound(es: seq<LineEvent>, init: ScanState)
    requires |init.seen| <= MaxSeenKeys
    ensures |Replay(es, init).seen| <= MaxSeenKeys
    decreases |es|
  {
    if es != [] {
      var prev := Replay(es[..|es| - 1], init);
      ReplayBound(es[..|es| - 1], init);
      var e := es[|es| - 1];
      AnnounceBound(prev.(pkg := if e.pkg.Some? then e.pkg.value else prev.pkg), e.ticker);
    }
  }

  /**
   * Keys determine the notification: since package names hold no colon, two
   * equal keys come from the same package and the same text.
   */
  lemma KeyInjective(p1: string, t1: string, p2: string, t2: string)
    requires ':' !in p1 && ':' !in p2
    requires Key(p1, t1) == Key(p2, t2)
    ensures p1 == p2 && t1 == t2
  {
    var k := Key(p1, t1);
    FirstColon(p1, t1);
    FirstColon(p2, t2);
    assert !(|p1| < |p2|);
    assert !(|p2| < |p1|);
    assert p1 == k[..|p1|] == p2;
    assert t1 == k[|p1| + 1..] == t2;
  }

  /** In a key, the first colon ends the package. */
  lemma FirstColon(p: string, t: string)
    requires ':' !in p
    ensures Key(p, t)[|p|] == ':'
    ensures forall i :: 0 <= i < |p| ==> Key(p, t)[i] != ':'
  {
    assert forall i :: 0 <= i < |p| ==> Key(p, t)[i] == p[i];
  }

  /** The keys of a sequence of toasts. */
  function KeysOf(ts: seq<Toast>): set<string> {
    if ts == [] then {} else KeysOf(ts[..|ts| - 1]) + {KeyOf(ts[|ts| - 1])}
  }

  /** The package current after the lines: the last one a line names, or `pkg` when none does. */
  function PkgAfter(es: seq<LineEvent>, pkg: string): string
    decreases |es|
  {
    if es == [] then pkg
    else if es[|es| - 1].pkg.Some? then es[|es| - 1].pkg.value
    else PkgAfter(es[..|es| - 1], pkg)
  }

  /**
   * What a scan is meant to toast, with no cache to forget anything: in line
   * order, each ticker text whose key under the package current at its line
   * was neither seen before the scan nor toasted by an earlier line.
   */
  function NewToasts(es: seq<LineEvent>, pkg: string, seen: set<string>): seq<Toast>
    decreases |es|
  {
    if es == [] then []
    else
      var before := NewToasts(es[..|es| - 1], pkg, seen);
      var e := es[|es| - 1];
      var p := PkgAfter(es, pkg);
      if e.ticker.Some? && Key(p, e.ticker.value) !in seen + KeysOf(before) then
        before + [Toast(p, e.ticker.value)]
      else
        before
  }

  /**
   * The intended toasts are a notification at most once each: their keys
   * are pairwise different and none was seen before, so each adds one key.
   */
  lemma {:induction false} NewToastsOnce(es: seq<LineEvent>, pkg: string, seen: set<string>)
    ensures var ts := NewToasts(es, pkg, seen);
      && (forall i :: 0 <= i < |ts| ==> KeyOf(ts[i]) !in seen)
      && (forall i, j :: 0 <= i < j < |ts| ==> KeyOf(ts[i]) != KeyOf(ts[j]))
      && |seen + KeysOf(ts)| == |seen| + |ts|
    decreases |es|
  {
    if es != [] {
      var front := es[..|es| - 1];
      NewToastsOnce(front, pkg, seen);
      var before := NewToasts(front, pkg, seen);
      var e := es[|es| - 1];
      var t := Toast(PkgAfter(es, pkg), if e.ticker.Some? then e.ticker.value else []);
      OnceStep(before, NewToasts(es, pkg, seen), t, seen);
    }
  }

  /** The intended toasts after one more line: unchanged, or one toast with a fresh key appended. */
  lemma OnceStep(before: seq<Toast>, after: seq<Toast>, t: Toast, seen: set<string>)
    requires forall i :: 0 <= i < |before| ==> KeyOf(before[i]) !in seen
    requires forall i, j :: 0 <= i < j < |before| ==> KeyOf(before[i]) != KeyOf(before[j])
    requires |seen + KeysOf(before)| == |seen| + |before|
    requires after == before || (after == before + [t] && KeyOf(t) !in seen + KeysOf(before))
    ensures forall i :: 0 <= i < |after| ==> KeyOf(after[i]) !in seen
    ensures forall i, j :: 0 <= i < j < |after| ==> KeyOf(after[i]) != KeyOf(after[j])
    ensures |seen + KeysOf(after)| == |seen| + |after|
  {
    if after != before {
      AppendFreshKey(before, t, seen);
      assert seen + KeysOf(after) == (seen + KeysOf(before)) + {KeyOf(t)};
    }
  }

  /**
   * The intended toasts miss nothing: the key of every ticker text, under
   * the package current at its line, was seen before the scan or is toasted.
   */
  lemma {:induction false} NewToastsCover(es: seq<LineEvent>, pkg: string, seen: set<string>)
    ensures forall i :: 0 <= i < |es| && es[i].ticker.Some? ==>
      Key(PkgAfter(es[..i + 1], pkg), es[i].ticker.value) in seen + KeysOf(NewToasts(es, pkg, seen))
    decreases |es|
  {
    if es != [] {
      var front := es[..|es| - 1];
      NewToastsCover(front, pkg, seen);
      var before := NewToasts(front, pkg, seen);
      var after := NewToasts(es, pkg, seen);
      assert KeysOf(before) <= KeysOf(after) by {
        if after != before {
          assert after[..|after| - 1] == before;
        }
      }
      forall i | 0 <= i < |es| - 1
        ensures es[..i + 1] == front[..i + 1] && es[i] == front[i]
      {
      }
      assert es[..|es|] == es;
    }
  }

  /**
   * While the cache does not overflow, `_parse_and_notify` toasts exactly
   * what it is meant to: the scan ends with the last package named current,
   * the intended toasts appended in line order, and their keys cached.
   */
  lemma {:induction false} ReplayToastsNew(es: seq<LineEvent>, init: ScanState)
    requires |init.seen| + |NewToasts(es, init.pkg, init.seen)| <= MaxSeenKeys
    ensures var ts := NewToasts(es, init.pkg, init.seen);
      Replay(es, init) == ScanState(PkgAfter(es, init.pkg), init.seen + KeysOf(ts), init.toasts + ts)
    decreases |es|
  {
    if es == [] {
      assert init.toasts + [] == init.toasts;
    } else {
      var front := es[..|es| - 1];
      var before := NewToasts(front, init.pkg, init.seen);
      var e := es[|es| - 1];
      var p := PkgAfter(es, init.pkg);
      var prev := Replay(front, init);
      assert |before| <= |NewToasts(es, init.pkg, init.seen)|;
      ReplayToastsNew(front, init);
      NewToastsOnce(front, init.pkg, init.seen);
      assert Replay(es, init) == Announce(prev.(pkg := p), e.ticker);
      AnnounceNew(prev.(pkg := p), init.seen, init.toasts, before, e.ticker, NewToasts(es, init.pkg, init.seen));
    }
  }

  /** One ticker text, announced over a cache that holds the seen keys and those of the toasts so far. */
  lemma AnnounceNew(st: ScanState, seen: set<string>, toasts: seq<Toast>, before: seq<Toast>,
                    ticker: Option<string>, after: seq<Toast>)
    requires st.seen == seen + KeysOf(before) && st.toasts == toasts + before
    requires |st.seen| == |seen| + |before|
    requires after == if ticker.Some? && Key(st.pkg, ticker.value) !in st.seen
      then before + [Toast(st.pkg, ticker.value)] else before
    requires |seen| + |after| <= MaxSeenKeys
    ensures Announce(st, ticker) == ScanState(st.pkg, seen + KeysOf(after), toasts + after)
  {
    if ticker.Some? && Key(st.pkg, ticker.value) !in st.seen {
      var t := Toast(st.pkg, ticker.value);
      assert KeysOf(after) == KeysOf(before) + {KeyOf(t)} by {
        assert after[..|before|] == before;
      }
      assert toasts + before + [t] == toasts + after;
    }
  }

  /** A toast whose key is fresh keeps the keys of a toast sequence distinct and unseen. */
  lemma AppendFreshKey(ts: seq<Toast>, t: Toast, seen: set<string>)
    requires forall i :: 0 <= i < |ts| ==> KeyOf(ts[i]) !in seen
    requires forall i, j :: 0 <= i < j < |ts| ==> KeyOf(ts[i]) != KeyOf(ts[j])
    requires KeyOf(t) !in seen + KeysOf(ts)
    ensures KeysOf(ts + [t]) == KeysOf(ts) + {KeyOf(t)}
    ensures forall i :: 0 <= i < |ts + [t]| ==> KeyOf((ts + [t])[i]) !in seen
    ensures forall i, j :: 0 <= i < j < |ts + [t]| ==> KeyOf((ts + [t])[i]) != KeyOf((ts + [t])[j])
  {
    var ts' := ts + [t];
    assert ts'[..|ts'| - 1] == ts;
    forall i | 0 <= i < |ts|
      ensures KeyOf(ts[i]) != KeyOf(t)
    {
      KeysOfMember(ts, i);
    }
  }

  lemma {:induction false} KeysOfMember(ts: seq<Toast>, i: nat)
    requires i < |ts|
    ensures KeyOf(ts[i]) in KeysOf(ts)
    decreases |ts|
  {
    if i < |ts| - 1 {
      KeysOfMember(ts[..|ts| - 1], i);
    }
  }

  lemma {:induction false} KeysBound(ts: seq<Toast>)
    ensures |KeysOf(ts)| <= |ts|
    decreases |ts|
  {
    if ts != [] {
      KeysBound(ts[..|ts| - 1]);
    }
  }

  // ---------------------------------------------------------------------
  // The object.

  class NotificationSync {
    var running: bool
    var seenKeys: set<string>
    var deviceId: Option<string>
    var toasts: seq<Toast>

    ghost predicate Valid()
      reads this
    {
      |seenKeys| <= MaxSeenKeys
    }

    /** `__init__`: not polling, nothing seen, no device. */
    constructor ()
      ensures Valid()
      ensures !running && seenKeys == {} && deviceId == None && toasts == []
    {
      running := false;
      seenKeys := {};
      deviceId := None;
      toasts := [];
    }

    /** `start`: remembers the device and switches polling on; the seen keys are kept. */
    method Start(device: string)
      modifies this`running, this`deviceId
      ensures running && deviceId == Some(device)
    {
      deviceId := Some(device);
      running := true;
    }

    /** `stop`: switches polling off; the poll loop ends at its next check. */
    method Stop()
      modifies this`running
      ensures !running
    {
      running := false;
    }

    /**
     * `_parse_and_notify`: scans the dump line by line, starting from the
     * package `Unknown`, and toasts each new notification.
     */
    method ParseAndNotify(dumpOutput: string)
      requires Valid()
      modifies this`seenKeys, this`toasts
      ensures Valid()
      ensures var r := Replay(Events(SplitOn(dumpOutput, '\n')), ScanState(UnknownPkg, old(seenKeys), old(toasts)));
        seenKeys == r.seen && toasts == r.toasts
    {
      var events := Events(SplitOn(dumpOutput, '\n'));
      ScanEvents(events);
    }

    /** The line loop of a scan: the current package starts as "Unknown" on every scan. */
    method ScanEvents(events: seq<LineEvent>)
      requires Valid()
      modifies this`seenKeys, this`toasts
      ensures Valid()
      ensures var r := Replay(events, ScanState(UnknownPkg, old(seenKeys), old(toasts)));
        seenKeys == r.seen && toasts == r.toasts
    {
      ghost var init := ScanState(UnknownPkg, seenKeys, toasts);
      var currentPkg := UnknownPkg;
      var seen, shown := seenKeys, toasts;
      for i := 0 to |events|
        invariant ScanState(currentPkg, seen, shown) == Replay(events[..i], init)
      {
        ReplayNext(events, i, init);
        var event := events[i];
        if event.pkg.Some? {
          currentPkg := event.pkg.value;
        }
        if event.ticker.Some? {
          var text := event.ticker.value;
          var key := currentPkg + ":" + text;
          if key !in seen {
            seen := seen + {key};
            shown := shown + [Toast(currentPkg, text)];
            if |seen| > MaxSeenKeys {
              seen := {};
            }
          }
        }
      }
      assert events[..|events|] == events;
      ReplayBound(events, init);
      seenKeys, toasts := seen, shown;
    }
  }
}
