/**
 * The output/activity coordinator: the process-wide console-feedback state
 * shared by the HTTP and SOCKS listeners (mode selection, one-time port
 * announcements, the spinning cursor).
 *
 * `CoordState` is the value of the five package-level variables plus the
 * log of everything printed; `InitStep`, `PortInfoStep` and `ActivityStep`
 * say what one call does to it, and `OutputCoordinator` is the object whose
 * methods update the variables in place and are proved against those steps.
 */
module Coordinator {

  /** ModeDefault (cursor animation), ModeVerbose (logs), ModeQuiet (silence). */
  datatype Mode = Default | Verbose | Quiet

  /** Position in the four animation glyphs. */
  type Cursor = i: int | 0 <= i < 4

  const AnimationChars: seq<string> := ["|", "/", "-", "\\"]

  /** The proxy types the two listeners pass to showPortInfo. */
  const HttpKind: string := "HTTP"
  const SocksKind: string := "SOCKS"

  /** What the coordinator writes to standard output, one entry per print call. */
  datatype Printed =
    | VerboseBanner                          // "Starting proxbox in verbose mode...\n"
    | PortLine(proxyType: string, port: int) // "<type> proxy listening on port <port>\n"
    | Prime(glyph: string)                   // the first glyph, once both ports are shown
    | Tick(glyph: string)                    // a backspace followed by the next glyph

  datatype CoordState = CoordState(
    mode: Mode,
    initialized: bool,
    httpShown: bool,
    socksShown: bool,
    cursor: Cursor,
    out: seq<Printed>)

  /** The variables' initial values, before either listener starts. */
  const Initial: CoordState := CoordState(Default, false, false, false, 0, [])

  /** Quiet wins over verbose; neither flag gives the default animated mode. */
  function SelectMode(quiet: bool, verbose: bool): (m: Mode)
    ensures m == Quiet <==> quiet
    ensures m == Verbose <==> !quiet && verbose
    ensures m == Default <==> !quiet && !verbose
  {
    if quiet then Quiet else if verbose then Verbose else Default
  }

  /** initOutputMode: the first call fixes the mode, every later call is a no-op. */
  function InitStep(s: CoordState, quiet: bool, verbose: bool): (t: CoordState)
    ensures t.initialized
    ensures s.initialized ==> t == s
    ensures !s.initialized ==> t.mode == SelectMode(quiet, verbose)
    ensures t.httpShown == s.httpShown && t.socksShown == s.socksShown && t.cursor == s.cursor
    ensures |s.out| <= |t.out| && t.out[..|s.out|] == s.out
    ensures !s.initialized ==> t.out == s.out + (if t.mode == Verbose then [VerboseBanner] else [])
  {
    if s.initialized then s
    else
      var m := SelectMode(quiet, verbose);
      s.(mode := m, initialized := true,
         out := if m == Verbose then s.out + [VerboseBanner] else s.out)
  }

  /** The first half of showPortInfo: print a type's port line unless it was printed already. */
  function Announce(s: CoordState, proxyType: string, port: int): (t: CoordState)
    ensures t.httpShown == (s.httpShown || proxyType == HttpKind)
    ensures t.socksShown == (s.socksShown || proxyType == SocksKind)
    ensures t.out == s.out + (if t.httpShown != s.httpShown || t.socksShown != s.socksShown
                              then [PortLine(proxyType, port)] else [])
    ensures t.mode == s.mode && t.initialized == s.initialized && t.cursor == s.cursor
  {
    if proxyType == HttpKind && !s.httpShown then
      s.(httpShown := true, out := s.out + [PortLine(HttpKind, port)])
    else if proxyType == SocksKind && !s.socksShown then
      s.(socksShown := true, out := s.out + [PortLine(SocksKind, port)])
    else s
  }

  /**
   * showPortInfo: in Default mode, the first call for a proxy type prints
   * its port line and sets its flag, and every call made while both flags
   * are set prints the first glyph; in any other mode nothing happens.
   */
  function PortInfoStep(s: CoordState, proxyType: string, port: int): (t: CoordState)
    ensures s.mode != Default ==> t == s
    ensures t.httpShown == (s.httpShown || (s.mode == Default && proxyType == HttpKind))
    ensures t.socksShown == (s.socksShown || (s.mode == Default && proxyType == SocksKind))
    ensures t.mode == s.mode && t.initialized == s.initialized && t.cursor == s.cursor
    ensures |s.out| <= |t.out| && t.out[..|s.out|] == s.out
    ensures |t.out| == |s.out| + (if t.httpShown != s.httpShown || t.socksShown != s.socksShown then 1 else 0)
                               + (if s.mode == Default && t.httpShown && t.socksShown then 1 else 0)
    ensures t.httpShown != s.httpShown ==> t.out[|s.out|] == PortLine(HttpKind, port)
    ensures t.socksShown != s.socksShown ==> t.out[|s.out|] == PortLine(SocksKind, port)
    ensures s.mode == Default && t.httpShown && t.socksShown ==> t.out[|t.out| - 1] == Prime(AnimationChars[0])
  {
    if s.mode != Default then s
    else
      var announced := Announce(s, proxyType, port);
      if announced.httpShown && announced.socksShown then
        announced.(out := announced.out + [Prime(AnimationChars[0])])
      else announced
  }

  /** showActivity: in Default mode print the current glyph and move the cursor on. */
  function ActivityStep(s: CoordState): (t: CoordState)
    ensures s.mode != Default ==> t == s
    ensures t.mode == s.mode && t.initialized == s.initialized
    ensures t.httpShown == s.httpShown && t.socksShown == s.socksShown
  {
    match s.mode
    case Default =>
      s.(cursor := (s.cursor + 1) % |AnimationChars|,
         out := s.out + [Tick(AnimationChars[s.cursor])])
    case Verbose => s
    case Quiet => s
  }

  /** One call into the coordinator, from either listener. */
  datatype Call =
    | InitMode(quiet: bool, verbose: bool)
    | PortInfo(proxyType: string, port: int)
    | Activity

  function Step(s: CoordState, c: Call): CoordState
  {
    match c
    case InitMode(q, v) => InitStep(s, q, v)
    case PortInfo(kind, port) => PortInfoStep(s, kind, port)
    case Activity => ActivityStep(s)
  }

  /** The state after a sequence of calls, one whole call after another. */
  function Run(s: CoordState, calls: seq<Call>): CoordState
    decreases |calls|
  {
    if calls == [] then s else Run(Step(s, calls[0]), calls[1..])
  }

  /** How many "<proxyType> proxy listening" lines `out` holds. */
  function Announcements(out: seq<Printed>, proxyType: string): nat
    decreases |out|
  {
    if out == [] then 0
    else
      var last := out[|out| - 1];
      Announcements(out[..|out| - 1], proxyType)
        + (if last.PortLine? && last.proxyType == proxyType then 1 else 0)
  }

  /** Each displayed-flag records exactly whether its port line has been printed. */
  ghost predicate AnnouncedOnce(s: CoordState)
  {
    && Announcements(s.out, HttpKind) == (if s.httpShown then 1 else 0)
    && Announcements(s.out, SocksKind) == (if s.socksShown then 1 else 0)
  }

  lemma PortInfoKeepsAnnouncedOnce(s: CoordState, proxyType: string, port: int)
    requires AnnouncedOnce(s)
    ensures AnnouncedOnce(PortInfoStep(s, proxyType, port))
  {
    if s.mode == Default {
      var announced := Announce(s, proxyType, port);
      if proxyType == HttpKind && !s.httpShown {
        AppendPortLine(s.out, HttpKind, SocksKind, port);
      } else if proxyType == SocksKind && !s.socksShown {
        AppendPortLine(s.out, SocksKind, HttpKind, port);
      }
      assert AnnouncedOnce(announced);
      if announced.httpShown && announced.socksShown {
        AppendOtherOutput(announced.out, Prime(AnimationChars[0]));
      }
    }
  }

  /** Printing a port line adds one to its own type's count and leaves the other's alone. */
  lemma AppendPortLine(out: seq<Printed>, kind: string, other: string, port: int)
    requires kind != other
    ensures Announcements(out + [PortLine(kind, port)], kind) == Announcements(out, kind) + 1
    ensures Announcements(out + [PortLine(kind, port)], other) == Announcements(out, other)
  {
    assert (out + [PortLine(kind, port)])[..|out|] == out;
  }

  /** Printing anything but a port line leaves the announcement counts alone. */
  lemma AppendOtherOutput(out: seq<Printed>, p: Printed)
    requires !p.PortLine?
    ensures Announcements(out + [p], HttpKind) == Announcements(out, HttpKind)
    ensures Announcements(out + [p], SocksKind) == Announcements(out, SocksKind)
  {
    assert (out + [p])[..|out|] == out;
  }

  /** No interleaving of calls prints a port line while its flag is set, or sets a flag without one. */
  lemma {:induction false} RunKeepsAnnouncedOnce(s: CoordState, calls: seq<Call>)
    requires AnnouncedOnce(s)
    ensures AnnouncedOnce(Run(s, calls))
    decreases |calls|
  {
    if calls != [] {
      match calls[0] {
        case InitMode(q, v) =>
          if !s.initialized && SelectMode(q, v) == Verbose {
            AppendOtherOutput(s.out, VerboseBanner);
          }
        case PortInfo(kind, port) =>
          PortInfoKeepsAnnouncedOnce(s, kind, port);
        case Activity =>
          if s.mode == Default {
            AppendOtherOutput(s.out, Tick(AnimationChars[s.cursor]));
          }
      }
      RunKeepsAnnouncedOnce(Step(s, calls[0]), calls[1..]);
    }
  }

  /** Whatever the calls, each proxy type's port is announced at most once. */
  lemma AtMostOneAnnouncement(calls: seq<Call>)
    ensures Announcements(Run(Initial, calls).out, HttpKind) <= 1
    ensures Announcements(Run(Initial, calls).out, SocksKind) <= 1
  {
    RunKeepsAnnouncedOnce(Initial, calls);
  }

  /** A set displayed-flag is never cleared, and printed output is only ever appended to. */
  lemma {:induction false} RunIsMonotone(s: CoordState, calls: seq<Call>)
    ensures s.httpShown ==> Run(s, calls).httpShown
    ensures s.socksShown ==> Run(s, calls).socksShown
    ensures s.initialized ==> Run(s, calls).initialized
    ensures |s.out| <= |Run(s, calls).out| && Run(s, calls).out[..|s.out|] == s.out
    decreases |calls|
  {
    if calls != [] {
      var next := Step(s, calls[0]);
      assert |s.out| <= |next.out| && next.out[..|s.out|] == s.out;
      RunIsMonotone(next, calls[1..]);
    }
  }

  /** Once initialized, the mode never changes again, whatever flags later calls pass. */
  lemma {:induction false} ModeFixedOnceInitialized(s: CoordState, calls: seq<Call>)
    requires s.initialized
    ensures Run(s, calls).initialized && Run(s, calls).mode == s.mode
    decreases |calls|
  {
    if calls != [] {
      ModeFixedOnceInitialized(Step(s, calls[0]), calls[1..]);
    }
  }

  /** The first initOutputMode decides the mode for the rest of the run. */
  lemma FirstInitDecidesMode(s: CoordState, quiet: bool, verbose: bool, calls: seq<Call>)
    requires !s.initialized
    ensures Run(s, [InitMode(quiet, verbose)] + calls).mode == SelectMode(quiet, verbose)
  {
    var all := [InitMode(quiet, verbose)] + calls;
    assert all[0] == InitMode(quiet, verbose) && all[1..] == calls;
    ModeFixedOnceInitialized(InitStep(s, quiet, verbose), calls);
  }

  /** In Verbose or Quiet mode, once initialized, no call changes anything or prints anything. */
  lemma {:induction false} SilentModesAreInert(s: CoordState, calls: seq<Call>)
    requires s.initialized && s.mode != Default
    ensures Run(s, calls) == s
    decreases |calls|
  {
    if calls != [] {
      SilentModesAreInert(Step(s, calls[0]), calls[1..]);
    }
  }

  /** N showPortInfo calls for one proxy type, with the given ports. */
  function PortInfos(proxyType: string, ports: seq<int>): (calls: seq<Call>)
    ensures |calls| == |ports|
    ensures forall i :: 0 <= i < |calls| ==> calls[i] == PortInfo(proxyType, ports[i])
  {
    seq(|ports|, i requires 0 <= i < |ports| => PortInfo(proxyType, ports[i]))
  }

  /** The displayed-flag of a proxy type. */
  function Shown(s: CoordState, proxyType: string): bool
    requires proxyType == HttpKind || proxyType == SocksKind
  {
    if proxyType == HttpKind then s.httpShown else s.socksShown
  }

  /**
   * N > 0 announcements of one proxy type in Default mode print exactly one
   * line for it, carrying the first call's port.
   */
  lemma RepeatedAnnouncesOnce(s: CoordState, proxyType: string, ports: seq<int>)
    requires proxyType == HttpKind || proxyType == SocksKind
    requires s.mode == Default && AnnouncedOnce(s) && !Shown(s, proxyType) && |ports| > 0
    ensures Shown(Run(s, PortInfos(proxyType, ports)), proxyType)
    ensures Announcements(Run(s, PortInfos(proxyType, ports)).out, proxyType) == 1
    ensures PortLine(proxyType, ports[0]) in Run(s, PortInfos(proxyType, ports)).out
  {
    var calls := PortInfos(proxyType, ports);
    var first := Step(s, calls[0]);
    assert Shown(first, proxyType) && first.out[|s.out|] == PortLine(proxyType, ports[0]);
    PortInfoKeepsAnnouncedOnce(s, proxyType, ports[0]);
    RunKeepsAnnouncedOnce(first, calls[1..]);
    RunIsMonotone(first, calls[1..]);
    var last := Run(first, calls[1..]);
    assert last.out[|s.out|] == last.out[..|first.out|][|s.out|];
  }

  function Activities(k: nat): (calls: seq<Call>)
    ensures |calls| == k && forall i :: 0 <= i < k ==> calls[i] == Activity
  {
    seq(k, _ => Activity)
  }

  /** The cursor glyphs k activity signals print, starting from cursor c. */
  function Ticks(c: Cursor, k: nat): (out: seq<Printed>)
    ensures |out| == k
    decreases k
  {
    if k == 0 then [] else [Tick(AnimationChars[c])] + Ticks((c + 1) % 4, k - 1)
  }

  /** The i-th glyph printed is the one i places after the starting cursor, cyclically. */
  lemma {:induction false} TicksCycle(c: Cursor, k: nat, i: nat)
    requires i < k
    ensures Ticks(c, k)[i] == Tick(AnimationChars[(c + i) % 4])
    decreases k
  {
    if i > 0 {
      TicksTail(c, k, i);
      TicksCycle((c + 1) % 4, k - 1, i - 1);
      CursorAdvance(c, i - 1);
    } else {
      TicksHead(c, k);
    }
  }

  lemma TicksHead(c: Cursor, k: nat)
    requires 0 < k
    ensures Ticks(c, k)[0] == Tick(AnimationChars[c % 4])
  {
  }

  lemma TicksTail(c: Cursor, k: nat, i: nat)
    requires 0 < i < k
    ensures Ticks(c, k)[i] == Ticks((c + 1) % 4, k - 1)[i - 1]
  {
    var rest := Ticks((c + 1) % 4, k - 1);
    assert Ticks(c, k) == [Tick(AnimationChars[c])] + rest;
  }

  /**
   * k activity signals in Default mode advance the cursor by k modulo 4,
   * print the glyphs from the cursor onwards and change nothing else.
   */
  lemma {:induction false} ActivityCycles(s: CoordState, k: nat)
    requires s.mode == Default
    ensures Run(s, Activities(k)) == s.(cursor := (s.cursor + k) % 4, out := s.out + Ticks(s.cursor, k))
    decreases k
  {
    if k > 0 {
      var next := ActivityStep(s);
      RunFirst(s, Activities(k));
      assert Activities(k)[1..] == Activities(k - 1);
      ActivityCycles(next, k - 1);
      ActivityThenTicks(s, k);
    } else {
      assert Activities(k) == [] && s.out + Ticks(s.cursor, k) == s.out;
    }
  }

  lemma RunFirst(s: CoordState, calls: seq<Call>)
    requires calls != []
    ensures Run(s, calls) == Run(Step(s, calls[0]), calls[1..])
  {
  }

  /** One tick followed by k - 1 more is the same as k ticks from the original cursor. */
  lemma ActivityThenTicks(s: CoordState, k: nat)
    requires s.mode == Default && k > 0
    ensures var next := ActivityStep(s);
      next.(cursor := (next.cursor + (k - 1)) % 4, out := next.out + Ticks(next.cursor, k - 1))
      == s.(cursor := (s.cursor + k) % 4, out := s.out + Ticks(s.cursor, k))
  {
    TickCursor(s, k);
    TickOutput(s, k);
  }

  lemma TickCursor(s: CoordState, k: nat)
    requires s.mode == Default && k > 0
    ensures (ActivityStep(s).cursor + (k - 1)) % 4 == (s.cursor + k) % 4
  {
    CursorAdvance(s.cursor, k - 1);
  }

  lemma TickOutput(s: CoordState, k: nat)
    requires s.mode == Default && k > 0
    ensures ActivityStep(s).out + Ticks(ActivityStep(s).cursor, k - 1) == s.out + Ticks(s.cursor, k)
  {
    TicksAppend(s.out, s.cursor, k);
  }

  lemma TicksAppend(out: seq<Printed>, c: Cursor, k: nat)
    requires k > 0
    ensures out + Ticks(c, k) == (out + [Tick(AnimationChars[c])]) + Ticks((c + 1) % 4, k - 1)
  {
    assert Ticks(c, k) == [Tick(AnimationChars[c])] + Ticks((c + 1) % 4, k - 1);
  }

  lemma CursorAdvance(c: Cursor, i: nat)
    ensures ((c + 1) % 4 + i) % 4 == (c + 1 + i) % 4
  {
  }

  /**
   * Both listeners starting, HTTP first: in Default mode the two port lines
   * are followed by the first glyph; otherwise only the verbose banner, if
   * any, is printed.
   */
  lemma StartupOutput(quiet: bool, verbose: bool, httpPort: int, socksPort: int)
    ensures
      var calls := [InitMode(quiet, verbose), PortInfo(HttpKind, httpPort),
                    InitMode(quiet, verbose), PortInfo(SocksKind, socksPort)];
      Run(Initial, calls).out ==
        match SelectMode(quiet, verbose)
        case Default => [PortLine(HttpKind, httpPort), PortLine(SocksKind, socksPort), Prime("|")]
        case Verbose => [VerboseBanner]
        case Quiet => []
  {
    var calls := [InitMode(quiet, verbose), PortInfo(HttpKind, httpPort),
                  InitMode(quiet, verbose), PortInfo(SocksKind, socksPort)];
    var s1 := InitStep(Initial, quiet, verbose);
    var s2 := PortInfoStep(s1, HttpKind, httpPort);
    var s4 := PortInfoStep(s2, SocksKind, socksPort);
    var s3 := InitStep(s2, quiet, verbose);
    assert s3 == s2;
    assert Run(Initial, calls) == Run(s1, calls[1..]);
    assert Run(s1, calls[1..]) == Run(s2, calls[2..]);
    assert Run(s2, calls[2..]) == Run(s3, calls[3..]);
    assert Run(s3, calls[3..]) == Run(s4, []);
  }

  /** One listener's startup: initOutputMode, then showPortInfo for its own type. */
  function Start(s: CoordState, quiet: bool, verbose: bool, proxyType: string, port: int): CoordState
  {
    PortInfoStep(InitStep(s, quiet, verbose), proxyType, port)
  }

  /**
   * Both listeners starting from the initial variables, in either order:
   * in Default mode the two port lines in start order, then the first glyph;
   * otherwise only the verbose banner, if any.
   */
  lemma StartupEitherOrder(quiet: bool, verbose: bool, first: string, firstPort: int,
                           second: string, secondPort: int)
    requires (first == HttpKind && second == SocksKind) || (first == SocksKind && second == HttpKind)
    ensures Start(Start(Initial, quiet, verbose, first, firstPort), quiet, verbose, second, secondPort).out ==
      match SelectMode(quiet, verbose)
      case Default => [PortLine(first, firstPort), PortLine(second, secondPort), Prime(AnimationChars[0])]
      case Verbose => [VerboseBanner]
      case Quiet => []
  {
    var s1 := Start(Initial, quiet, verbose, first, firstPort);
    var i2 := InitStep(s1, quiet, verbose);
    assert i2 == s1;
    if SelectMode(quiet, verbose) == Default {
      assert s1.out == [PortLine(first, firstPort)];
    }
  }

  /** The output once the HTTP and SOCKS listeners have both started, in the given order. */
  function BothStarted(quiet: bool, verbose: bool, httpPort: int, socksPort: int, httpFirst: bool)
    : CoordState
  {
    if httpFirst then Start(Start(Initial, quiet, verbose, HttpKind, httpPort), quiet, verbose, SocksKind, socksPort)
    else Start(Start(Initial, quiet, verbose, SocksKind, socksPort), quiet, verbose, HttpKind, httpPort)
  }

  /**
   * Whichever listener starts first, Default mode prints each port line
   * once and ends with the first glyph; the other modes print at most the
   * verbose banner.
   */
  lemma StartupPrintsEachPortOnce(quiet: bool, verbose: bool, httpPort: int, socksPort: int, httpFirst: bool)
    ensures var out := BothStarted(quiet, verbose, httpPort, socksPort, httpFirst).out;
      && (SelectMode(quiet, verbose) == Default ==>
            && multiset(out) == multiset{PortLine(HttpKind, httpPort), PortLine(SocksKind, socksPort), Prime("|")}
            && out[|out| - 1] == Prime("|"))
      && (SelectMode(quiet, verbose) != Default ==> out == (if verbose && !quiet then [VerboseBanner] else []))
  {
    var http, socks := PortLine(HttpKind, httpPort), PortLine(SocksKind, socksPort);
    var out := BothStarted(quiet, verbose, httpPort, socksPort, httpFirst).out;
    if httpFirst {
      StartupEitherOrder(quiet, verbose, HttpKind, httpPort, SocksKind, socksPort);
      if SelectMode(quiet, verbose) == Default {
        assert out == [http, socks, Prime("|")];
      }
    } else {
      StartupEitherOrder(quiet, verbose, SocksKind, socksPort, HttpKind, httpPort);
      if SelectMode(quiet, verbose) == Default {
        assert out == [socks, http, Prime("|")];
      }
    }
  }

  /** The package-level state of the coordinator, updated in place by both listeners. */
  class OutputCoordinator {
    var outputMode: Mode
    var modeInitialized: bool
    var httpPortDisplayed: bool
    var socksPortDisplayed: bool
    var animationIndex: Cursor
    ghost var printed: seq<Printed>

    ghost function State(): CoordState
      reads this
    {
      CoordState(outputMode, modeInitialized, httpPortDisplayed, socksPortDisplayed,
                 animationIndex, printed)
    }

    constructor ()
      ensures State() == Initial
    {
      outputMode := Default;
      modeInitialized := false;
      httpPortDisplayed := false;
      socksPortDisplayed := false;
      animationIndex := 0;
      printed := [];
    }

    method InitOutputMode(quiet: bool, verbose: bool)
      modifies this
      ensures State() == InitStep(old(State()), quiet, verbose)
      ensures old(modeInitialized) ==> unchanged(this)
    {
      if modeInitialized {
        return;
      }
      modeInitialized := true;

      if quiet {
        outputMode := Quiet;
      } else if verbose {
        outputMode := Verbose;
      } else {
        outputMode := Default;
      }

      // Default and Quiet also swap in a no-op structured logger.
      match outputMode {
        case Default =>
        case Verbose => printed := printed + [VerboseBanner];
        case Quiet =>
      }
    }

    method ShowPortInfo(proxyType: string, port: int)
      modifies this
      ensures State() == PortInfoStep(old(State()), proxyType, port)
      ensures old(outputMode) != Default ==> unchanged(this)
    {
      if outputMode != Default {
        return;
      }

      if proxyType == HttpKind && !httpPortDisplayed {
        printed := printed + [PortLine(HttpKind, port)];
        httpPortDisplayed := true;
      } else if proxyType == SocksKind && !socksPortDisplayed {
        printed := printed + [PortLine(SocksKind, port)];
        socksPortDisplayed := true;
      }

      if httpPortDisplayed && socksPortDisplayed {
        printed := printed + [Prime(AnimationChars[0])];
      }
    }

    method ShowActivity()
      modifies this
      ensures State() == ActivityStep(old(State()))
      ensures old(outputMode) != Default ==> unchanged(this)
    {
      match outputMode {
        case Default =>
          printed := printed + [Tick(AnimationChars[animationIndex])];
          animationIndex := (animationIndex + 1) % |AnimationChars|;
        case Verbose =>
        case Quiet =>
      }
    }
  }
}
