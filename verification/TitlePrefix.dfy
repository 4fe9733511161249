/**
 The merge-number prefix of a pull-request title: how it is printed and recognised, when a title is changed,
 and what any number of interrupted runs can leave at the remote.

 Assumed: the remote stores a title as sent; nobody else edits it while a run holds a title it has read or a
 request of a run may still land.

 Main results: `ParseOfFormat`, `AnnotatedIsRecognised`, `PrefixedAtMostOnce`, `NumberPrefixedAtMostOnce`,
 `AnnotateCall.AnnotateOne`, `OwnRequestAuditedIff`, `SameCallUnaudited`, `AnyCallAuditedIff`.
 */
module TitlePrefix {
  import opened Wrappers

  // ----- The number's written form -----

  const MERGE_NUMBER_MAX: nat := 9007199254740991

  predicate IsDigit(c: char) {
    '0' <= c <= '9'
  }

  predicate AllDigits(s: string) {
    forall i :: 0 <= i < |s| ==> IsDigit(s[i])
  }

  function Digit(d: nat): (c: char)
    requires d < 10
    ensures IsDigit(c) && (c == '0' <==> d == 0)
  {
    ('0' as int + d) as char
  }

  function Decimal(n: nat): (s: string)
    ensures s != [] && AllDigits(s)
    ensures n > 0 ==> s[0] != '0'
  {
    if n < 10 then [Digit(n)] else Decimal(n / 10) + [Digit(n % 10)]
  }

  function Value(digits: string): nat
    requires AllDigits(digits)
  {
    if digits == [] then 0 else 10 * Value(digits[..|digits| - 1]) + (digits[|digits| - 1] as int - '0' as int)
  }

  lemma {:induction false} ValueOfDecimal(n: nat)
    ensures Value(Decimal(n)) == n
  {
    if n >= 10 {
      ValueOfDecimal(n / 10);
      assert Decimal(n)[..|Decimal(n)| - 1] == Decimal(n / 10);
    } else {
      assert [Digit(n)][..0] == [];
    }
  }

  function Power(k: nat): nat {
    if k == 0 then 1 else 10 * Power(k - 1)
  }

  lemma {:induction false} DecimalLength(n: nat, k: nat)
    requires k >= 1 && n < Power(k)
    ensures |Decimal(n)| <= k
  {
    if n >= 10 {
      assert k > 1;
      DecimalLength(n / 10, k - 1);
    }
  }

  lemma SixteenDigits(n: nat)
    requires n <= MERGE_NUMBER_MAX
    ensures |Decimal(n)| <= 16
  {
    assert Power(4) == 10000;
    assert Power(8) == 100000000 by { assert Power(5) == 100000 && Power(6) == 1000000 && Power(7) == 10000000; }
    assert Power(12) == 1000000000000 by { assert Power(9) == 1000000000 && Power(10) == 10000000000 && Power(11) == 100000000000; }
    assert Power(16) == 10000000000000000 by {
      assert Power(13) == 10000000000000 && Power(14) == 100000000000000 && Power(15) == 1000000000000000;
    }
    DecimalLength(n, 16);
  }

  /** Refused for a code that is not all digits and for numbers out of range. */
  function FormatMergeNumber(code: string, number: int): Option<string> {
    if code == [] || !AllDigits(code) || number < 1 || number > MERGE_NUMBER_MAX then None
    else Some("M-" + code + "-" + Decimal(number))
  }

  /** The number of digits at the front. */
  function DigitRun(s: string): (n: nat)
    ensures n <= |s| && AllDigits(s[..n]) && (n < |s| ==> !IsDigit(s[n]))
  {
    if s == [] || !IsDigit(s[0]) then 0
    else
      assert s[..1 + DigitRun(s[1..])] == [s[0]] + s[1..][..DigitRun(s[1..])];
      1 + DigitRun(s[1..])
  }

  datatype MergeNumber = MergeNumber(code: string, number: nat)

  function ParseMergeNumber(text: string): Option<MergeNumber> {
    if |text| < 2 || text[0] != 'M' || text[1] != '-' then None
    else
      var rest := text[2..];
      var run := DigitRun(rest);
      if run == 0 || run == |rest| || rest[run] != '-' then None
      else
        var digits := rest[run + 1..];
        if digits == [] || !AllDigits(digits) || digits[0] == '0' || |digits| > 16 then None
        else if Value(digits) < 1 || Value(digits) > MERGE_NUMBER_MAX then None
        else Some(MergeNumber(rest[..run], Value(digits)))
  }

  lemma {:induction false} RunOf(code: string, tail: string)
    requires AllDigits(code) && (tail != [] ==> !IsDigit(tail[0]))
    ensures DigitRun(code + tail) == |code|
  {
    if code == [] {
      assert code + tail == tail;
    } else {
      assert (code + tail)[1..] == code[1..] + tail;
      RunOf(code[1..], tail);
    }
  }

  /** What is printed is read back as the same code and number. */
  lemma ParseOfFormat(code: string, number: int)
    requires FormatMergeNumber(code, number).Some?
    ensures ParseMergeNumber(FormatMergeNumber(code, number).value) == Some(MergeNumber(code, number))
  {
    var digits := Decimal(number);
    var text := "M-" + code + "-" + digits;
    assert text[2..] == code + ("-" + digits);
    RunOf(code, "-" + digits);
    assert text[2..][..|code|] == code;
    assert text[2..][|code| + 1..] == digits;
    ValueOfDecimal(number);
    SixteenDigits(number);
  }

  // ----- The prefix of a title -----

  /** White space other than line ends. */
  predicate Blank(c: char) {
    var n := c as int;
    n == 9 || n == 11 || n == 12 || n == 32 || n == 160 || n == 5760 || 8192 <= n <= 8202 ||
    n == 8232 || n == 8233 || n == 8239 || n == 8287 || n == 12288 || n == 65279
  }

  function AfterBlanks(s: string): string {
    if s != [] && Blank(s[0]) then AfterBlanks(s[1..]) else s
  }

  /** The text up to the first closing bracket, if none of it ends a line. */
  function Enclosed(s: string): Option<string> {
    if s == [] || s[0] == '\r' || s[0] == '\n' then None
    else if s[0] == ']' then Some([])
    else
      match Enclosed(s[1..])
      case None => None
      case Some(inner) => Some([s[0]] + inner)
  }

  function LeadingBracket(title: string): Option<string> {
    var s := AfterBlanks(title);
    if s == [] || s[0] != '[' then None else Enclosed(s[1..])
  }

  datatype Decision = Update(nextTitle: string) | AlreadyAnnotated | Mismatch(found: string)

  function Prefixed(expected: string, title: string): string {
    "[" + expected + "] " + title
  }

  function DecideTitleUpdate(expected: string, current: string): Decision {
    var inner := LeadingBracket(current);
    if inner.Some? && ParseMergeNumber(inner.value).Some? then
      if inner.value == expected then AlreadyAnnotated else Mismatch(inner.value)
    else Update(Prefixed(expected, current))
  }

  predicate Printed(expected: string) {
    ParseMergeNumber(expected).Some? && forall i :: 0 <= i < |expected| ==> expected[i] != ']' && expected[i] != '\r' && expected[i] != '\n'
  }

  lemma FormatIsPrinted(code: string, number: int)
    requires FormatMergeNumber(code, number).Some?
    ensures Printed(FormatMergeNumber(code, number).value)
  {
    ParseOfFormat(code, number);
    var text := FormatMergeNumber(code, number).value;
    forall i | 0 <= i < |text|
      ensures text[i] == 'M' || text[i] == '-' || IsDigit(text[i])
    {
      assert text == "M-" + code + "-" + Decimal(number);
    }
  }

  lemma {:induction false} EnclosedIs(inner: string, tail: string)
    requires forall i :: 0 <= i < |inner| ==> inner[i] != ']' && inner[i] != '\r' && inner[i] != '\n'
    ensures Enclosed(inner + "]" + tail) == Some(inner)
  {
    if inner == [] {
      assert (inner + "]" + tail)[0] == ']';
    } else {
      assert (inner + "]" + tail)[1..] == inner[1..] + "]" + tail;
      EnclosedIs(inner[1..], tail);
      assert inner == [inner[0]] + inner[1..];
    }
  }

  /** A title with the prefix is never given another one. */
  lemma AnnotatedIsRecognised(expected: string, title: string)
    requires Printed(expected)
    ensures DecideTitleUpdate(expected, Prefixed(expected, title)) == AlreadyAnnotated
  {
    var text := Prefixed(expected, title);
    assert text[1..] == expected + "]" + (" " + title);
    EnclosedIs(expected, " " + title);
  }

  // ----- Runs, crashes and lost answers on one title -----

  /** `base` is the title as last edited by somebody else; `held` the titles read by runs; `underway` may still land. */
  datatype World = World(title: string, base: string, held: map<nat, string>, underway: seq<string>)

  datatype Event =
    | Edit(title: string)
    | Read(run: nat)
    | Send(run: nat)       // the changing request leaves
    | Land(i: nat)
    | Vanish(i: nat)       // it never arrives
    | Stop(run: nat)       // finished, put off, or dead

  predicate Enabled(expected: string, w: World, e: Event) {
    match e
    case Edit(_) => w.held == map[] && w.underway == []
    case Read(_) => true
    case Send(run) => run in w.held && DecideTitleUpdate(expected, w.held[run]).Update?
    case Land(i) => i < |w.underway|
    case Vanish(i) => i < |w.underway|
    case Stop(run) => run in w.held
  }

  function Apply(expected: string, w: World, e: Event): World
    requires Enabled(expected, w, e)
  {
    match e
    case Edit(title) => w.(title := title, base := title)
    case Read(run) => w.(held := w.held[run := w.title])
    case Send(run) => w.(underway := w.underway + [DecideTitleUpdate(expected, w.held[run]).nextTitle], held := w.held - {run})
    case Land(i) => w.(title := w.underway[i], underway := w.underway[..i] + w.underway[i + 1..])
    case Vanish(i) => w.(underway := w.underway[..i] + w.underway[i + 1..])
    case Stop(run) => w.(held := w.held - {run})
  }

  /** The title as edited, or once prefixed where the edited title has no merge-number prefix of its own. */
  predicate Proper(expected: string, base: string, title: string) {
    title == base || (DecideTitleUpdate(expected, base).Update? && title == Prefixed(expected, base))
  }

  ghost predicate Inv(expected: string, w: World) {
    && Proper(expected, w.base, w.title)
    && (forall run :: run in w.held ==> Proper(expected, w.base, w.held[run]))
    && (forall sent :: sent in w.underway ==> DecideTitleUpdate(expected, w.base).Update? && sent == Prefixed(expected, w.base))
  }

  lemma SendKeepsInv(expected: string, w: World, run: nat)
    requires Printed(expected) && Inv(expected, w) && Enabled(expected, w, Send(run))
    ensures Inv(expected, Apply(expected, w, Send(run)))
  {
    hide DecideTitleUpdate, Prefixed, Printed;
    AnnotatedIsRecognised(expected, w.base);
    UpdateIs(expected, w.base);
    var text := DecideTitleUpdate(expected, w.held[run]).nextTitle;
    assert text == Prefixed(expected, w.base) && DecideTitleUpdate(expected, w.base).Update?;
    assert forall sent :: sent in w.underway + [text] ==> sent in w.underway || sent == text;
  }

  lemma GoneKeepsInv(expected: string, w: World, e: Event)
    requires Inv(expected, w) && Enabled(expected, w, e) && (e.Land? || e.Vanish?)
    ensures Inv(expected, Apply(expected, w, e))
  {
    hide DecideTitleUpdate, Prefixed;
    AllButOne(w.underway, e.i, w.underway[..e.i] + w.underway[e.i + 1..]);
    assert w.underway[e.i] in w.underway;
  }

  lemma StepKeepsInv(expected: string, w: World, e: Event)
    requires Printed(expected) && Inv(expected, w) && Enabled(expected, w, e)
    ensures Inv(expected, Apply(expected, w, e))
  {
    hide DecideTitleUpdate, Prefixed, Printed;
    match e {
      case Send(run) => SendKeepsInv(expected, w, run);
      case Land(_) => GoneKeepsInv(expected, w, e);
      case Vanish(_) => GoneKeepsInv(expected, w, e);
      case _ =>
    }
  }

  lemma AllButOne(s: seq<string>, i: nat, rest: seq<string>)
    requires i < |s| && rest == s[..i] + s[i + 1..]
    ensures forall x :: x in rest ==> x in s
  {}

  lemma UpdateIs(expected: string, title: string)
    requires DecideTitleUpdate(expected, title).Update?
    ensures DecideTitleUpdate(expected, title).nextTitle == Prefixed(expected, title)
  {}

  ghost predicate RunOk(expected: string, w: World, events: seq<Event>)
    decreases |events|
  {
    events != [] ==> Enabled(expected, w, events[0]) && RunOk(expected, Apply(expected, w, events[0]), events[1..])
  }

  function After(expected: string, w: World, events: seq<Event>): World
    requires RunOk(expected, w, events)
    decreases |events|
  {
    if events == [] then w else After(expected, Apply(expected, w, events[0]), events[1..])
  }

  /**
   Over any number of runs, crashes and lost or late requests the title is what somebody last made it, or that
   with the prefix once in front; a title with another merge number in front stays as it is.
   */
  lemma {:induction false} PrefixedAtMostOnce(expected: string, w: World, events: seq<Event>)
    requires Printed(expected) && Inv(expected, w) && RunOk(expected, w, events)
    ensures
      var end := After(expected, w, events);
      && Inv(expected, end) && Proper(expected, end.base, end.title)
      && (DecideTitleUpdate(expected, end.base).Mismatch? ==> end.title == end.base && end.underway == [])
    decreases |events|
  {
    hide Enabled, Apply, Printed, DecideTitleUpdate;
    if events == [] {
      assert w.underway != [] ==> w.underway[0] in w.underway;
    } else {
      StepKeepsInv(expected, w, events[0]);
      PrefixedAtMostOnce(expected, Apply(expected, w, events[0]), events[1..]);
    }
  }

  /** The same for every repository code and number that can be printed, from any title on. */
  lemma NumberPrefixedAtMostOnce(code: string, number: int, title: string, events: seq<Event>)
    requires FormatMergeNumber(code, number).Some?
    requires RunOk(FormatMergeNumber(code, number).value, World(title, title, map[], []), events)
    ensures
      var expected := FormatMergeNumber(code, number).value;
      var end := After(expected, World(title, title, map[], []), events);
      Proper(expected, end.base, end.title) && (DecideTitleUpdate(expected, end.base).Mismatch? ==> end.title == end.base)
  {
    hide RunOk, After, Proper;
    FormatIsPrinted(code, number);
    var expected := FormatMergeNumber(code, number).value;
    assert Inv(expected, World(title, title, map[], [])) by { AsEdited(expected, title); }
    PrefixedAtMostOnce(expected, World(title, title, map[], []), events);
  }

  lemma AsEdited(expected: string, title: string)
    ensures Proper(expected, title, title)
  {}

  // ----- The retry loop of one call -----

  const ANNOTATE_MAX_ATTEMPTS := 5
  const MAX_FRESHNESS_RESTARTS := 3

  datatype Kind = RateLimited | Permission | Auth | Validation | Server | Network | Timeout | Aborted

  datatype Attempt =
    | Done(wrote: bool)
    | Foreign
    | BodyChanged
    | Superseded
    | Restart
    | Deferred
    | Failure(kind: Kind, unknown: bool, slept: bool)

  datatype RowState = RowDone | RowMismatch | RowBodyChanged | RowFailed | RowUnknown
  datatype Audit = Annotated | AnnotatedObserved
  datatype Verdict = Verdict(audit: Option<Audit>, mark: Option<RowState>, limited: bool)

  function Conclude(last: Attempt, recovering: bool): Verdict {
    match last
    case Done(true) => Verdict(Some(Annotated), Some(RowDone), false)
    case Done(false) => Verdict(if recovering then Some(AnnotatedObserved) else None, Some(RowDone), false)
    case Foreign => Verdict(None, Some(RowMismatch), false)
    case BodyChanged => Verdict(None, Some(RowBodyChanged), false)
    case Superseded => Verdict(None, None, false)
    case Restart => Verdict(None, None, false)
    case Deferred => Verdict(None, None, false)
    case Failure(kind, unknown, _) =>
      if kind.RateLimited? then Verdict(None, None, true)
      else if kind.Permission? || kind.Validation? then Verdict(None, Some(RowFailed), false)
      else if kind.Aborted? then Verdict(None, if unknown then Some(RowUnknown) else None, false)
      else Verdict(None, Some(if unknown then RowUnknown else RowFailed), false)
  }

  predicate Retries(attempt: Attempt, number: nat) {
    attempt.Failure? && (attempt.kind.Auth? || attempt.kind.Server? || attempt.kind.Network? || attempt.kind.Timeout?)
    && number < ANNOTATE_MAX_ATTEMPTS && attempt.slept
  }

  predicate LeavesOutcomeUnknown(kind: Kind) {
    kind.Server? || kind.Network? || kind.Timeout? || kind.Aborted?
  }

  /** Trailing white space may be trimmed by the remote. */
  function TrimEnd(s: string): string {
    if s != [] && (Blank(s[|s| - 1]) || s[|s| - 1] == '\r' || s[|s| - 1] == '\n') then TrimEnd(s[..|s| - 1]) else s
  }

  // ----- What the attempts of a call do at the remote -----

  /**
   The remote title, the changing requests sent so far, whether one of them took effect, what one with a lost
   answer may still store, and whether the answer to one that took effect arrived.
   */
  datatype Moment = Moment(title: string, patches: nat, landed: bool, underway: Option<string>, answered: bool)

  /** Within a call that found this title, the remote holds it or has the prefix once in front of it. */
  predicate Held(expected: string, base: string, m: Moment) {
    && Proper(expected, base, m.title)
    && (m.landed || m.underway.Some? ==> DecideTitleUpdate(expected, base).Update?)
    && (m.landed ==> m.title == Prefixed(expected, base))
    && (m.underway.Some? ==> m.underway.value == Prefixed(expected, base))
  }

  /** What an attempt that ended like this may have done: only one that saw a title without a number sends a request. */
  predicate Played(expected: string, base: string, a: Moment, attempt: Attempt, b: Moment) {
    && a.patches <= b.patches <= a.patches + 1 && (b.patches > a.patches ==> DecideTitleUpdate(expected, a.title).Update?)
    && (a.landed ==> b.landed)
    && (b.answered <==> a.answered || attempt == Done(true))
    && (attempt != Done(true) && (b.landed || b.underway.Some?) ==>
          a.landed || a.underway.Some? || (attempt.Failure? && attempt.unknown))
    && (attempt != Done(true) && !attempt.BodyChanged? ==> Held(expected, base, b))
    && match attempt
       case Done(true) =>
         DecideTitleUpdate(expected, a.title).Update? && b.landed && TrimEnd(b.title) == TrimEnd(Prefixed(expected, base))
       case Done(false) => DecideTitleUpdate(expected, b.title).AlreadyAnnotated?
       case Foreign => DecideTitleUpdate(expected, b.title).Mismatch?
       case BodyChanged => DecideTitleUpdate(expected, a.title).Update?
       case Failure(kind, unknown, _) => unknown ==> LeavesOutcomeUnknown(kind) && DecideTitleUpdate(expected, a.title).Update?
       case _ => true
  }

  /** The moments around the attempts of one call. */
  ghost predicate Plays(expected: string, base: string, moments: seq<Moment>, attempts: seq<Attempt>) {
    && |moments| == |attempts| + 1
    && forall i :: 0 <= i < |attempts| ==>
         Held(expected, base, moments[i]) && Played(expected, base, moments[i], attempts[i], moments[i + 1])
  }

  predicate Continues(attempt: Attempt) {
    attempt.Restart? || attempt.Failure?
  }

  ghost predicate IsCall(attempts: seq<Attempt>) {
    attempts != [] && forall i :: 0 <= i < |attempts| - 1 ==> Continues(attempts[i])
  }

  predicate Fresh(m: Moment) {
    !m.landed && m.underway.None? && !m.answered
  }

  lemma PlaysSnoc(expected: string, base: string, moments: seq<Moment>, attempts: seq<Attempt>, attempt: Attempt, next: Moment)
    requires Plays(expected, base, moments, attempts) && Held(expected, base, moments[|attempts|])
    requires Played(expected, base, moments[|attempts|], attempt, next)
    ensures Plays(expected, base, moments + [next], attempts + [attempt])
  {}

  /** Once a request has taken effect the prefix is seen, whether its answer came or not: no other request follows. */
  lemma LandedIsSeen(expected: string, base: string, m: Moment)
    requires Printed(expected) && Held(expected, base, m) && m.landed
    ensures DecideTitleUpdate(expected, m.title).AlreadyAnnotated?
  {
    AnnotatedIsRecognised(expected, base);
  }

  lemma {:induction false} LandedStays(expected: string, base: string, moments: seq<Moment>, attempts: seq<Attempt>, k: nat, i: nat)
    requires Printed(expected) && Plays(expected, base, moments, attempts)
    requires k <= i <= |attempts| && k < |attempts| && moments[k].landed
    ensures moments[i].landed && moments[i].patches == moments[k].patches
    ensures i > k ==> attempts[i - 1] != Done(true)
  {
    hide DecideTitleUpdate, Printed, Prefixed, Proper, TrimEnd;
    if i > k {
      LandedStays(expected, base, moments, attempts, k, i - 1);
      assert Held(expected, base, moments[i - 1]) && Played(expected, base, moments[i - 1], attempts[i - 1], moments[i]);
      LandedIsSeen(expected, base, moments[i - 1]);
    }
  }

  /**
   If a request of the call had taken effect before its last attempt, its answer was lost: nothing more is sent,
   and a call that ends done writes an audit record only if the row was unknown before the call.
   */
  lemma SameCallUnaudited(expected: string, base: string, moments: seq<Moment>, attempts: seq<Attempt>, k: nat, before: Option<RowState>)
    requires Printed(expected) && Plays(expected, base, moments, attempts) && IsCall(attempts)
    requires k < |attempts| && moments[k].landed
    ensures moments[|attempts|].patches == moments[k].patches
    ensures attempts[|attempts| - 1].Done? ==>
              (Conclude(attempts[|attempts| - 1], before == Some(RowUnknown)).audit.Some? <==> before == Some(RowUnknown))
  {
    LandedStays(expected, base, moments, attempts, k, |attempts|);
  }

  lemma {:induction false} AnsweredIff(expected: string, base: string, moments: seq<Moment>, attempts: seq<Attempt>, i: nat)
    requires Plays(expected, base, moments, attempts) && i <= |attempts| && !moments[0].answered
    ensures moments[i].answered <==> Done(true) in attempts[..i]
  {
    hide DecideTitleUpdate, Prefixed, Proper, TrimEnd;
    if i > 0 {
      AnsweredIff(expected, base, moments, attempts, i - 1);
      assert Played(expected, base, moments[i - 1], attempts[i - 1], moments[i]);
      assert attempts[..i] == attempts[..i - 1] + [attempts[i - 1]];
    }
  }

  /** A call that ends done after one of its own requests took effect writes an audit record iff that was answered or the row unknown. */
  lemma OwnRequestAuditedIff(expected: string, base: string, moments: seq<Moment>, attempts: seq<Attempt>, before: Option<RowState>)
    requires Plays(expected, base, moments, attempts) && IsCall(attempts) && Fresh(moments[0])
    requires attempts[|attempts| - 1].Done? && moments[|attempts|].landed
    ensures
      Conclude(attempts[|attempts| - 1], before == Some(RowUnknown)).audit.Some? <==>
      moments[|attempts|].answered || before == Some(RowUnknown)
  {
    hide Played, Held;
    AnsweredIff(expected, base, moments, attempts, |attempts|);
    assert attempts[..|attempts|] == attempts;
    assert forall i :: 0 <= i < |attempts| - 1 ==> Continues(attempts[i]);
  }

  /** For every title without a number: the request that sets the prefix times out, the retry sees it, and nothing is audited. */
  lemma TimedOutUnaudited(expected: string, title: string)
    requires Printed(expected) && DecideTitleUpdate(expected, title).Update?
    ensures
      var untouched := Moment(title, 0, false, None, false);
      var prefixed := Moment(Prefixed(expected, title), 1, true, None, false);
      var attempts := [Failure(Timeout, true, true), Done(false)];
      && Fresh(untouched) && Plays(expected, title, [untouched, prefixed, prefixed], attempts) && IsCall(attempts)
      && Retries(attempts[0], 1) && Conclude(attempts[1], false) == Verdict(None, Some(RowDone), false)
  {
    hide DecideTitleUpdate, Prefixed, TrimEnd;
    AnnotatedIsRecognised(expected, title);
  }

  // ----- Any number of calls -----

  datatype Call = Call(base: string, moments: seq<Moment>, attempts: seq<Attempt>)

  ghost predicate Made(expected: string, call: Call) {
    Plays(expected, call.base, call.moments, call.attempts) && IsCall(call.attempts)
  }

  function LastOf(call: Call): Attempt
    requires call.attempts != []
  {
    call.attempts[|call.attempts| - 1]
  }

  function MarkAfter(row: Option<RowState>, call: Call): Option<RowState>
    requires call.attempts != []
  {
    var verdict := Conclude(LastOf(call), row == Some(RowUnknown));
    if verdict.mark.Some? then verdict.mark else row
  }

  /** What the row says after these calls. */
  function RowAfter(calls: seq<Call>, before: Option<RowState>): Option<RowState>
    requires forall k :: 0 <= k < |calls| ==> calls[k].attempts != []
  {
    if calls == [] then before else MarkAfter(RowAfter(calls[..|calls| - 1], before), calls[|calls| - 1])
  }

  predicate EndsUnknown(last: Attempt) {
    last.Failure? && last.unknown
  }

  predicate LeavesNoMark(last: Attempt) {
    last.Superseded? || last.Restart? || last.Deferred? || (last.Failure? && (last.kind.RateLimited? || last.kind.Aborted?))
  }

  ghost predicate NoneDone(calls: seq<Call>) {
    forall k :: 0 <= k < |calls| ==> calls[k].attempts != [] && !LastOf(calls[k]).Done?
  }

  /** A call ended with an unknown attempt, or the row was unknown from the start, and no later call left a mark. */
  ghost predicate UnknownLeft(calls: seq<Call>, before: Option<RowState>)
    requires forall k :: 0 <= k < |calls| ==> calls[k].attempts != []
  {
    || (before == Some(RowUnknown) && forall j :: 0 <= j < |calls| ==> LeavesNoMark(LastOf(calls[j])))
    || exists i :: 0 <= i < |calls| && EndsUnknown(LastOf(calls[i])) && forall j :: i < j < |calls| ==> LeavesNoMark(LastOf(calls[j]))
  }

  lemma UnknownLeftSnoc(calls: seq<Call>, last: Call, before: Option<RowState>)
    requires forall k :: 0 <= k < |calls| ==> calls[k].attempts != []
    requires last.attempts != []
    ensures UnknownLeft(calls + [last], before) <==> EndsUnknown(LastOf(last)) || (UnknownLeft(calls, before) && LeavesNoMark(LastOf(last)))
  {
    var all := calls + [last];
    assert all[|calls|] == last && forall k :: 0 <= k < |calls| ==> all[k] == calls[k];
    if UnknownLeft(all, before) && !(before == Some(RowUnknown) && forall j :: 0 <= j < |all| ==> LeavesNoMark(LastOf(all[j]))) {
      var i :| 0 <= i < |all| && EndsUnknown(LastOf(all[i])) && forall j :: i < j < |all| ==> LeavesNoMark(LastOf(all[j]));
      if i < |calls| { assert EndsUnknown(LastOf(calls[i])) && LeavesNoMark(LastOf(all[|calls|])); }
    }
    if UnknownLeft(calls, before) && LeavesNoMark(LastOf(last)) &&
       !(before == Some(RowUnknown) && forall j :: 0 <= j < |calls| ==> LeavesNoMark(LastOf(calls[j]))) {
      var i :| 0 <= i < |calls| && EndsUnknown(LastOf(calls[i])) && forall j :: i < j < |calls| ==> LeavesNoMark(LastOf(calls[j]));
      assert EndsUnknown(LastOf(all[i]));
    }
    if EndsUnknown(LastOf(last)) { assert EndsUnknown(LastOf(all[|calls|])); }
  }

  lemma CallKeepsUnknown(expected: string, call: Call, before: Option<RowState>)
    requires Made(expected, call) && !LastOf(call).Done?
    ensures MarkAfter(before, call) == Some(RowUnknown) <==>
              EndsUnknown(LastOf(call)) || (before == Some(RowUnknown) && LeavesNoMark(LastOf(call)))
  {
    hide Held, DecideTitleUpdate, TrimEnd, Prefixed;
    var n := |call.attempts|;
    assert Played(expected, call.base, call.moments[n - 1], call.attempts[n - 1], call.moments[n]);
  }

  lemma {:induction false} RowUnknownIff(expected: string, calls: seq<Call>, before: Option<RowState>)
    requires NoneDone(calls) && forall k :: 0 <= k < |calls| ==> Made(expected, calls[k])
    ensures RowAfter(calls, before) == Some(RowUnknown) <==> UnknownLeft(calls, before)
    decreases |calls|
  {
    hide Made, MarkAfter, EndsUnknown, LeavesNoMark;
    if calls != [] {
      var init, last := calls[..|calls| - 1], calls[|calls| - 1];
      assert calls == init + [last];
      RowUnknownIff(expected, init, before);
      UnknownLeftSnoc(init, last, before);
      CallKeepsUnknown(expected, last, RowAfter(init, before));
    }
  }

  /**
   After any number of calls that did not end done, on whatever titles: a call that ends done writes an audit
   record exactly if its own request was answered, or an earlier call ended unknown and none since left a mark.
   */
  lemma AnyCallAuditedIff(expected: string, calls: seq<Call>, before: Option<RowState>, last: Call)
    requires NoneDone(calls) && forall k :: 0 <= k < |calls| ==> Made(expected, calls[k])
    requires Made(expected, last) && LastOf(last).Done? && !last.moments[0].answered
    ensures
      Conclude(LastOf(last), RowAfter(calls, before) == Some(RowUnknown)).audit.Some? <==>
      last.moments[|last.attempts|].answered || UnknownLeft(calls, before)
  {
    hide Played, Held, UnknownLeft, RowAfter;
    RowUnknownIff(expected, calls, before);
    AnsweredIff(expected, last.base, last.moments, last.attempts, |last.attempts|);
    assert last.attempts[..|last.attempts|] == last.attempts;
    assert forall i :: 0 <= i < |last.attempts| - 1 ==> Continues(last.attempts[i]);
  }

  /** For every title without a number: the request that sets the prefix times out, the call is put off, the next sees it unaudited. */
  lemma PutOffUnaudited(expected: string, title: string)
    requires Printed(expected) && DecideTitleUpdate(expected, title).Update?
    ensures
      var untouched := Moment(title, 0, false, None, false);
      var prefixed := Moment(Prefixed(expected, title), 1, true, None, false);
      var seen := Moment(Prefixed(expected, title), 1, false, None, false);
      var first := Call(title, [untouched, prefixed, prefixed], [Failure(Timeout, true, true), Deferred]);
      var second := Call(Prefixed(expected, title), [seen, seen], [Done(false)]);
      && Made(expected, first) && Made(expected, second) && Retries(first.attempts[0], 1)
      && Conclude(LastOf(second), RowAfter([first], None) == Some(RowUnknown)) == Verdict(None, Some(RowDone), false)
  {
    hide DecideTitleUpdate, Prefixed, TrimEnd, Printed;
    AnnotatedIsRecognised(expected, title);
    var untouched := Moment(title, 0, false, None, false);
    var prefixed := Moment(Prefixed(expected, title), 1, true, None, false);
    var seen := Moment(Prefixed(expected, title), 1, false, None, false);
    var first := Call(title, [untouched, prefixed, prefixed], [Failure(Timeout, true, true), Deferred]);
    var second := Call(Prefixed(expected, title), [seen, seen], [Done(false)]);
    assert [first][..0] == [];
    AnyCallAuditedIff(expected, [first], None, second);
  }

  // ----- One call -----

  class AnnotateCall {
    const expected: string
    /** The remote title. */
    var title: string
    var state: Option<RowState>
    var audits: seq<Audit>
    var patches: nat
    /** What a request of this call whose answer was lost may still store. */
    var underway: Option<string>
    /** A request of this call took effect; and one that did was answered. */
    ghost var landed: bool
    ghost var answered: bool

    ghost function Now(): Moment
      reads this
    {
      Moment(title, patches, landed, underway, answered)
    }

    /** A request whose answer was lost may take effect between any two of our requests. */
    method Elsewhere(ghost base: string)
      requires Held(expected, base, Now())
      modifies this`title, this`landed
      ensures Held(expected, base, Now()) && (old(landed) ==> landed) && (landed ==> old(landed) || underway.Some?)
      ensures title == old(title) || (underway.Some? && title == underway.value)
    {
      var lands: bool := *;
      if underway.Some? && lands {
        title, landed := underway.value, true;
      }
    }

    /** Stores the title sent, or answers with what it stored instead; a failure may hide that it is, or will be, stored. */
    method UpdateTitle(ghost base: string, next: string) returns (failed: Option<Kind>, echoed: string)
      requires Held(expected, base, Now()) && DecideTitleUpdate(expected, base).Update? && next == Prefixed(expected, base)
      modifies this`title, this`patches, this`landed, this`underway, this`answered
      ensures patches == old(patches) + 1 && (old(landed) ==> landed)
      ensures failed.None? ==> title == echoed && underway == old(underway)
      ensures failed.None? && TrimEnd(echoed) == TrimEnd(next) ==> landed && answered
      ensures failed.None? && TrimEnd(echoed) != TrimEnd(next) ==> answered == old(answered) && (landed ==> old(landed) || underway.Some?)
      ensures failed.Some? ==> Held(expected, base, Now()) && answered == old(answered)
      ensures failed.Some? && !LeavesOutcomeUnknown(failed.value) ==> underway == old(underway) && (landed ==> old(landed) || underway.Some?)
    {
      Elsewhere(base);
      patches := patches + 1;
      var kind: Kind := *;
      var stored: bool := *;
      var replied: bool := *;
      echoed := next;
      if replied {
        var other: string := *;
        echoed := if stored then next else other;
        title := echoed;
        if TrimEnd(echoed) == TrimEnd(next) { landed, answered := true, true; }
        return None, echoed;
      }
      if LeavesOutcomeUnknown(kind) {
        if stored { title, landed := next, true; } else { underway := Some(next); }
      }
      failed := Some(kind);
    }

    /** One attempt: at most one changing request, and none unless the title just read lacks the prefix. */
    method AttemptOnce(ghost base: string) returns (outcome: Attempt)
      requires Printed(expected) && Held(expected, base, Now())
      modifies this`title, this`patches, this`landed, this`underway, this`answered
      ensures Played(expected, base, old(Now()), outcome, Now())
      ensures outcome.Restart? ==> patches == old(patches)
    {
      hide DecideTitleUpdate, Prefixed, TrimEnd, Printed;
      var expired: bool := *;
      var current: bool := *;
      if expired { return Deferred; }
      if !current { return Superseded; }
      var unread: Option<Kind> := *;
      var slept: bool := *;
      Elsewhere(base);
      if unread.Some? { return Failure(unread.value, false, slept); }
      var decision := DecideTitleUpdate(expected, title);
      if decision.AlreadyAnnotated? { return Done(false); }
      if decision.Mismatch? { return Foreign; }
      AnnotatedIsRecognised(expected, base);
      UpdateIs(expected, base);
      var turn: bool := *;
      var longWait: bool := *;
      if !turn { return Deferred; }
      if longWait { return Restart; }
      current := *;
      if !current { return Superseded; }
      expired := *;
      if expired { return Deferred; }
      var failed, echoed := UpdateTitle(base, decision.nextTitle);
      if failed.Some? { return Failure(failed.value, LeavesOutcomeUnknown(failed.value), slept); }
      if TrimEnd(echoed) != TrimEnd(decision.nextTitle) { return BodyChanged; }
      outcome := Done(true);
    }

    /** The audit record and the row's mark that a verdict asks for. */
    method Record(verdict: Verdict)
      modifies this`audits, this`state
      ensures audits == old(audits) + if verdict.audit.Some? then [verdict.audit.value] else []
      ensures state == if verdict.mark.Some? then verdict.mark else old(state)
    {
      if verdict.audit.Some? { audits := audits + [verdict.audit.value]; }
      if verdict.mark.Some? { state := verdict.mark; }
    }

    /**
     Restarts for a fresher title do not use up attempts, and the loop still ends, with at most five changing
     requests; a row whose stored body differed is not touched at all.
     */
    method AnnotateOne() returns (verdict: Verdict, ghost attempts: seq<Attempt>, ghost moments: seq<Moment>)
      requires Printed(expected) && Fresh(Now())
      modifies this
      ensures verdict.mark != Some(RowBodyChanged) ==>
                title == old(title) || TrimEnd(title) == TrimEnd(Prefixed(expected, old(title)))
      ensures !DecideTitleUpdate(expected, old(title)).Update? ==> title == old(title) && patches == old(patches)
      ensures verdict.mark == Some(RowMismatch) ==> title == old(title)
      ensures patches <= old(patches) + ANNOTATE_MAX_ATTEMPTS
      ensures |attempts| <= ANNOTATE_MAX_ATTEMPTS + MAX_FRESHNESS_RESTARTS + 1
      ensures Plays(expected, old(title), moments, attempts) && moments[0] == old(Now()) && moments[|attempts|] == Now()
      ensures old(state) == Some(RowBodyChanged) ==> patches == old(patches) && audits == old(audits) && state == old(state) && title == old(title)
      ensures old(state) != Some(RowBodyChanged) ==>
                IsCall(attempts) && verdict == Conclude(attempts[|attempts| - 1], old(state) == Some(RowUnknown))
      ensures audits == old(audits) + if verdict.audit.Some? then [verdict.audit.value] else []
      ensures state == if verdict.mark.Some? then verdict.mark else old(state)
      ensures verdict.mark == Some(RowDone) && landed ==> (verdict.audit.Some? <==> answered || old(state) == Some(RowUnknown))
    {
      hide DecideTitleUpdate, TrimEnd, Prefixed, Printed, Played, Held, Plays;
      ghost var base := title;
      attempts, moments := [], [Now()];
      verdict := Verdict(None, None, false);
      NothingPlayed(expected, base, Now());
      if state == Some(RowBodyChanged) { return; }
      var recovering := state == Some(RowUnknown);
      var restarts := 0;
      var number := 1;
      while true
        invariant 1 <= number <= ANNOTATE_MAX_ATTEMPTS && 0 <= restarts <= MAX_FRESHNESS_RESTARTS
        invariant patches <= old(patches) + number - 1 && |attempts| == number - 1 + restarts
        invariant audits == old(audits) && state == old(state)
        invariant forall i :: 0 <= i < |attempts| ==> Continues(attempts[i])
        invariant Held(expected, base, Now()) && Plays(expected, base, moments, attempts)
        invariant |moments| == |attempts| + 1 && moments[0] == old(Now()) && moments[|attempts|] == Now()
        invariant !DecideTitleUpdate(expected, base).Update? ==> title == base && patches == old(patches)
        decreases ANNOTATE_MAX_ATTEMPTS - number + MAX_FRESHNESS_RESTARTS - restarts
      {
        label again:
        var outcome := AttemptOnce(base);
        PlayedEnd(expected, base, old@again(Now()), outcome, Now());
        PlaysSnoc(expected, base, moments, attempts, outcome, Now());
        attempts, moments := attempts + [outcome], moments + [Now()];
        if outcome.Restart? && restarts < MAX_FRESHNESS_RESTARTS {
          restarts := restarts + 1;
        } else if Retries(outcome, number) {
          number := number + 1;
        } else {
          verdict := Conclude(outcome, recovering);
          if verdict.mark == Some(RowDone) && landed { OwnRequestAuditedIff(expected, base, moments, attempts, state); }
          Record(verdict);
          return;
        }
      }
    }
  }

  lemma NothingPlayed(expected: string, base: string, now: Moment)
    requires Fresh(now) && now.title == base
    ensures Plays(expected, base, [now], []) && Held(expected, base, now)
  {}

  lemma PlayedEnd(expected: string, base: string, a: Moment, attempt: Attempt, b: Moment)
    requires Printed(expected) && Held(expected, base, a) && Played(expected, base, a, attempt, b)
    ensures a.patches <= b.patches <= a.patches + 1
    ensures attempt != Done(true) && !attempt.BodyChanged? ==> Held(expected, base, b)
    ensures !attempt.BodyChanged? ==> b.title == base || TrimEnd(b.title) == TrimEnd(Prefixed(expected, base))
    ensures !DecideTitleUpdate(expected, base).Update? ==> b.title == base && b.patches == a.patches
    ensures attempt.Foreign? ==> b.title == base
  {
    hide DecideTitleUpdate, TrimEnd, Prefixed, Printed;
    AnnotatedIsRecognised(expected, base);
  }
}
