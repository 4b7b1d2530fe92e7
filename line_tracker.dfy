/** The per-challenge line meter of line-tracker.js: one line is charged for each distinct hint,
    code option or distractor explanation viewed, the running total is posted to the parent window,
    and a capped completion log is kept. */
module LineTracking {
  import opened Wrappers
  import opened Strings
  import opened ElapsedTime

  /** One entry of `interactions`; `timestamp` is milliseconds since the tracker started. */
  datatype Interaction =
    | HintView(stepIndex: nat, timestamp: int)
    | CodeView(stepIndex: nat, optionIndex: nat, isCorrect: bool, timestamp: int)
    | DistractorView(stepIndex: nat, distractorIndex: nat, timestamp: int)

  /** A message posted to the parent window. */
  datatype Message =
    | LinesUsed(lines: int, challengeSerial: Option<string>, timestamp: int)
    | ChallengeCompleted(success: bool, linesUsed: int, challengeSerial: Option<string>,
                         completionTime: string, interactions: seq<Interaction>)

  /** One entry of the stored `userCompletions` log. */
  datatype CompletionRecord = CompletionRecord(challengeSerial: Option<string>, timestamp: int, linesUsed: int,
                                               completionTime: string, success: bool, interactions: nat)

  /** What `getStats` reports (without the floating-point efficiency). */
  datatype Stats = Stats(linesUsed: int, viewedHints: nat, viewedCodes: nat, viewedDistractors: nat, timeElapsed: int)

  /** The number of completions `saveCompletion` keeps. */
  const MaxCompletions: nat := 100

  // ---------------------------------------------------------------- view keys

  function HintKey(stepIndex: nat): (k: string)
    ensures IsHintKey(k) && !IsCodeKey(k) && !IsCommentKey(k)
  {
    var k := "hint-" + DecimalString(stepIndex);
    assert k[..5] == "hint-" && k[0] == 'h';
    k
  }

  function CodeKey(stepIndex: nat, optionIndex: nat): (k: string)
    ensures IsCodeKey(k) && !IsHintKey(k) && !IsCommentKey(k)
  {
    var k := "code-" + DecimalString(stepIndex) + "-" + DecimalString(optionIndex);
    assert k[..5] == "code-" && k[0] == 'c' && k[2] == 'd';
    k
  }

  function CommentKey(stepIndex: nat, distractorIndex: nat): (k: string)
    ensures IsCommentKey(k) && !IsHintKey(k) && !IsCodeKey(k)
  {
    var k := "comment-" + DecimalString(stepIndex) + "-" + DecimalString(distractorIndex);
    assert k[..8] == "comment-" && k[0] == 'c' && k[2] == 'm';
    k
  }

  /** The `viewedOptions` key a view is charged under. */
  function KeyOf(x: Interaction): string {
    match x
    case HintView(s, _) => HintKey(s)
    case CodeView(s, o, _, _) => CodeKey(s, o)
    case DistractorView(s, d, _) => CommentKey(s, d)
  }

  /** Two views of the same thing: same kind, same step, same option or distractor. */
  predicate SameView(a: Interaction, b: Interaction) {
    match (a, b)
    case (HintView(s1, _), HintView(s2, _)) => s1 == s2
    case (CodeView(s1, o1, _, _), CodeView(s2, o2, _, _)) => s1 == s2 && o1 == o2
    case (DistractorView(s1, d1, _), DistractorView(s2, d2, _)) => s1 == s2 && d1 == d2
    case _ => false
  }

  /** Splitting "i-j" at the dash recovers both indices. */
  lemma PairInjective(a1: nat, b1: nat, a2: nat, b2: nat)
    requires DecimalString(a1) + "-" + DecimalString(b1) == DecimalString(a2) + "-" + DecimalString(b2)
    ensures a1 == a2 && b1 == b2
  {
    forall a: nat ensures '-' !in DecimalString(a) {
      DigitsExclude(DecimalString(a), '-');
    }
    SplitTwo(DecimalString(a1), DecimalString(b1), '-');
    SplitTwo(DecimalString(a2), DecimalString(b2), '-');
    DecimalInjective(a1, a2);
    DecimalInjective(b1, b2);
  }

  lemma HintKeyInjective(s1: nat, s2: nat)
    requires HintKey(s1) == HintKey(s2)
    ensures s1 == s2
  {
    assert DecimalString(s1) == HintKey(s1)[5..] == DecimalString(s2);
    DecimalInjective(s1, s2);
  }

  lemma CodeKeyInjective(s1: nat, o1: nat, s2: nat, o2: nat)
    requires CodeKey(s1, o1) == CodeKey(s2, o2)
    ensures s1 == s2 && o1 == o2
  {
    var k := CodeKey(s1, o1);
    assert k[5..] == DecimalString(s1) + "-" + DecimalString(o1);
    assert k[5..] == DecimalString(s2) + "-" + DecimalString(o2);
    PairInjective(s1, o1, s2, o2);
  }

  lemma CommentKeyInjective(s1: nat, d1: nat, s2: nat, d2: nat)
    requires CommentKey(s1, d1) == CommentKey(s2, d2)
    ensures s1 == s2 && d1 == d2
  {
    var k := CommentKey(s1, d1);
    assert k[8..] == DecimalString(s1) + "-" + DecimalString(d1);
    assert k[8..] == DecimalString(s2) + "-" + DecimalString(d2);
    PairInjective(s1, d1, s2, d2);
  }

  /** Key construction is injective: two views share a key exactly when they view the same thing. */
  lemma KeyInjective(a: Interaction, b: Interaction)
    ensures KeyOf(a) == KeyOf(b) <==> SameView(a, b)
  {
    KeyPrefix(a);
    KeyPrefix(b);
    if KeyOf(a) == KeyOf(b) {
      match (a, b)
      case (HintView(s1, _), HintView(s2, _)) => HintKeyInjective(s1, s2);
      case (CodeView(s1, o1, _, _), CodeView(s2, o2, _, _)) => CodeKeyInjective(s1, o1, s2, o2);
      case (DistractorView(s1, d1, _), DistractorView(s2, d2, _)) => CommentKeyInjective(s1, d1, s2, d2);
      case _ =>
    }
  }

  /** The kind a key belongs to, read off its prefix as `getStats` does. */
  predicate IsHintKey(k: string) { StartsWith(k, "hint-") }
  predicate IsCodeKey(k: string) { StartsWith(k, "code-") }
  predicate IsCommentKey(k: string) { StartsWith(k, "comment-") }

  /** Every key has the prefix of its own kind and of no other. */
  lemma KeyPrefix(x: Interaction)
    ensures IsHintKey(KeyOf(x)) <==> x.HintView?
    ensures IsCodeKey(KeyOf(x)) <==> x.CodeView?
    ensures IsCommentKey(KeyOf(x)) <==> x.DistractorView?
  {
    var k := KeyOf(x);
    match x
    case HintView(_, _) =>
      assert k[..5] == "hint-" && k[0] == 'h';
    case CodeView(_, _, _, _) =>
      assert k[..5] == "code-" && k[0] == 'c' && k[2] == 'd';
    case DistractorView(_, _, _) =>
      assert k[..8] == "comment-" && k[0] == 'c' && k[2] == 'm';
  }

  /** The keys charged for a list of views. */
  function KeySet(xs: seq<Interaction>): set<string> {
    if xs == [] then {} else KeySet(xs[..|xs| - 1]) + {KeyOf(xs[|xs| - 1])}
  }

  /** A key is charged exactly when one of the views views that thing. */
  lemma {:induction false} KeySetIff(xs: seq<Interaction>, x: Interaction)
    ensures KeyOf(x) in KeySet(xs) <==> exists i :: 0 <= i < |xs| && SameView(xs[i], x)
  {
    if xs != [] {
      var init := xs[..|xs| - 1];
      KeySetIff(init, x);
      KeyInjective(xs[|xs| - 1], x);
      ViewedSplit(xs, x);
    }
  }

  /** Some view in `xs` views the same thing as `x`. */
  predicate Viewed(xs: seq<Interaction>, x: Interaction) {
    exists i :: 0 <= i < |xs| && SameView(xs[i], x)
  }

  /** A view occurs in a non-empty list when it occurs in all but the last, or is the last. */
  lemma ViewedSplit(xs: seq<Interaction>, x: Interaction)
    requires xs != []
    ensures Viewed(xs, x) <==> Viewed(xs[..|xs| - 1], x) || SameView(xs[|xs| - 1], x)
  {
    var init := xs[..|xs| - 1];
    if exists i :: 0 <= i < |init| && SameView(init[i], x) {
      var i :| 0 <= i < |init| && SameView(init[i], x);
      assert xs[i] == init[i];
    }
    if exists i :: 0 <= i < |xs| && SameView(xs[i], x) {
      var i :| 0 <= i < |xs| && SameView(xs[i], x);
      if i < |init| {
        assert init[i] == xs[i];
      }
    }
  }

  /** Every charged key is the key of one of the views. */
  lemma {:induction false} KeySetMembers(xs: seq<Interaction>, k: string)
    requires k in KeySet(xs)
    ensures exists i :: 0 <= i < |xs| && KeyOf(xs[i]) == k
  {
    var init := xs[..|xs| - 1];
    if k != KeyOf(xs[|xs| - 1]) {
      KeySetMembers(init, k);
      var i :| 0 <= i < |init| && KeyOf(init[i]) == k;
      assert xs[i] == init[i];
    }
  }

  lemma KeySetAppend(xs: seq<Interaction>, x: Interaction)
    ensures KeySet(xs + [x]) == KeySet(xs) + {KeyOf(x)}
  {
    assert (xs + [x])[..|xs|] == xs;
  }

  // ---------------------------------------------------------------- running totals

  /** The `lines` of the `linesUsed` messages, in posting order. */
  function LineAmounts(ms: seq<Message>): (r: seq<int>)
    ensures |r| <= |ms|
  {
    if ms == [] then []
    else LineAmounts(ms[..|ms| - 1]) + (if ms[|ms| - 1].LinesUsed? then [ms[|ms| - 1].lines] else [])
  }

  lemma LineAmountsAppend(ms: seq<Message>, m: Message)
    ensures LineAmounts(ms + [m]) == LineAmounts(ms) + (if m.LinesUsed? then [m.lines] else [])
  {
    assert (ms + [m])[..|ms|] == ms;
  }

  /** The running totals 1, 2, ..., n. */
  function UpTo(n: nat): (r: seq<int>)
    ensures |r| == n && forall i :: 0 <= i < n ==> r[i] == i + 1
  {
    seq(n, i => i + 1)
  }

  function Sum(s: seq<int>): int {
    if s == [] then 0 else Sum(s[..|s| - 1]) + s[|s| - 1]
  }

  /** Posting running totals for k views charges 1 + 2 + ... + k = k(k+1)/2 lines in all. */
  lemma {:induction false} SumUpTo(n: nat)
    ensures Sum(UpTo(n)) == n * (n + 1) / 2
  {
    if n > 0 {
      assert UpTo(n)[..n - 1] == UpTo(n - 1);
      SumUpTo(n - 1);
    }
  }

  /** The meter invariant on the tracker's fields: one line per distinct view, and, inside the app's
      frame, the parent told every running total in turn. */
  ghost predicate Metered(lines: nat, viewed: set<string>, xs: seq<Interaction>, outbox: seq<Message>, embedded: bool) {
    && lines == |viewed| == |xs|
    && viewed == KeySet(xs)
    && LineAmounts(outbox) == (if embedded then UpTo(lines) else [])
    && (!embedded ==> outbox == [])
  }

  /** Charging a new view and posting the new total keeps the meter invariant. */
  lemma ChargeKeepsMeter(lines: nat, viewed: set<string>, xs: seq<Interaction>, outbox: seq<Message>, embedded: bool,
                         view: Interaction, serial: Option<string>, now: int)
    requires Metered(lines, viewed, xs, outbox, embedded) && KeyOf(view) !in viewed
    ensures Metered(lines + 1, viewed + {KeyOf(view)}, xs + [view],
                    outbox + (if embedded then [LinesUsed(lines + 1, serial, now)] else []), embedded)
  {
    var k := KeyOf(view);
    KeySetAppend(xs, view);
    assert |viewed + {k}| == |viewed| + 1;
    if embedded {
      LineAmountsAppend(outbox, LinesUsed(lines + 1, serial, now));
      assert UpTo(lines + 1) == UpTo(lines) + [lines + 1];
    }
  }

  /** Inside the app's frame, the `linesUsed` messages of k charged views add up to k(k+1)/2: the
      ledger that adds each message's `lines` is charged the sum of the running totals. */
  lemma MeterChargesTriangle(lines: nat, viewed: set<string>, xs: seq<Interaction>, outbox: seq<Message>)
    requires Metered(lines, viewed, xs, outbox, true)
    ensures Sum(LineAmounts(outbox)) == lines * (lines + 1) / 2
  {
    SumUpTo(lines);
  }

  /** Posting a completion message leaves the line totals alone. */
  lemma CompletionKeepsMeter(lines: nat, viewed: set<string>, xs: seq<Interaction>, outbox: seq<Message>,
                             m: Message)
    requires Metered(lines, viewed, xs, outbox, true) && m.ChallengeCompleted?
    ensures Metered(lines, viewed, xs, outbox + [m], true)
  {
    LineAmountsAppend(outbox, m);
  }

  // ---------------------------------------------------------------- the completion log

  /** `saveCompletion`'s push followed by a single `shift` when the log grew past the cap. */
  function AppendCapped(log: seq<CompletionRecord>, rec: CompletionRecord): (r: seq<CompletionRecord>)
    ensures |r| >= 1 && r[|r| - 1] == rec
    ensures |log| < MaxCompletions ==> r == log + [rec]
    ensures |log| >= MaxCompletions ==> r == log[1..] + [rec]
    ensures |log| <= MaxCompletions ==> |r| <= MaxCompletions
  {
    var pushed := log + [rec];
    if |pushed| > MaxCompletions then
      assert pushed[1..] == log[1..] + [rec];
      pushed[1..]
    else pushed
  }

  // ---------------------------------------------------------------- the tracker

  class LineTracker {
    /** The serial passed to the constructor (absent when the page has none). */
    const challengeSerial: Option<string>
    var linesUsedInChallenge: nat
    var viewedOptions: set<string>
    const startTime: int
    var interactions: seq<Interaction>
    /** `window.parent !== window`: the page runs inside the app's frame. */
    const embedded: bool
    /** The messages posted to the parent window so far. */
    var outbox: seq<Message>
    /** The stored `userCompletions` log. */
    var completions: seq<CompletionRecord>

    /** One charged line per distinct view, and the parent told each running total in turn. */
    ghost predicate Valid()
      reads this
    {
      Metered(linesUsedInChallenge, viewedOptions, interactions, outbox, embedded)
    }

    constructor (challengeSerial: Option<string>, startTime: int, embedded: bool, completions: seq<CompletionRecord>)
      ensures Valid()
      ensures this.challengeSerial == challengeSerial && this.startTime == startTime && this.embedded == embedded
      ensures linesUsedInChallenge == 0 && viewedOptions == {} && interactions == [] && outbox == []
      ensures this.completions == completions
    {
      this.challengeSerial := challengeSerial;
      linesUsedInChallenge := 0;
      viewedOptions := {};
      this.startTime := startTime;
      interactions := [];
      this.embedded := embedded;
      outbox := [];
      this.completions := completions;
    }

    /** `sendLineUpdate`: posts the running total, not the increment, when embedded. */
    method SendLineUpdate(now: int)
      modifies this`outbox
      ensures outbox == old(outbox) + (if embedded then [LinesUsed(linesUsedInChallenge, challengeSerial, now)] else [])
    {
      if embedded {
        outbox := outbox + [LinesUsed(linesUsedInChallenge, challengeSerial, now)];
      }
    }

    /** The shared body of the three `track*` methods: charge the view's key once. */
    method Track(view: Interaction, now: int)
      requires Valid()
      modifies this`linesUsedInChallenge, this`viewedOptions, this`interactions, this`outbox
      ensures Valid() && old(linesUsedInChallenge) <= linesUsedInChallenge
      ensures KeyOf(view) in old(viewedOptions) ==>
        && linesUsedInChallenge == old(linesUsedInChallenge) && viewedOptions == old(viewedOptions)
        && interactions == old(interactions) && outbox == old(outbox)
      ensures KeyOf(view) !in old(viewedOptions) ==>
        && viewedOptions == old(viewedOptions) + {KeyOf(view)}
        && linesUsedInChallenge == old(linesUsedInChallenge) + 1
        && interactions == old(interactions) + [view]
        && outbox == old(outbox) + (if embedded then [LinesUsed(linesUsedInChallenge, challengeSerial, now)] else [])
    {
      var key := KeyOf(view);
      if key !in viewedOptions {
        ChargeKeepsMeter(linesUsedInChallenge, viewedOptions, interactions, outbox, embedded, view, challengeSerial, now);
        viewedOptions := viewedOptions + {key};
        linesUsedInChallenge := linesUsedInChallenge + 1;
        interactions := interactions + [view];
        SendLineUpdate(now);
      }
    }

    /** `trackHintView`. */
    method TrackHintView(stepIndex: nat, now: int)
      requires Valid()
      modifies this`linesUsedInChallenge, this`viewedOptions, this`interactions, this`outbox
      ensures Valid() && old(linesUsedInChallenge) <= linesUsedInChallenge
      ensures var view := HintView(stepIndex, now - startTime);
        && (KeyOf(view) in old(viewedOptions) ==>
              linesUsedInChallenge == old(linesUsedInChallenge) && interactions == old(interactions) && outbox == old(outbox))
        && (KeyOf(view) !in old(viewedOptions) ==>
              linesUsedInChallenge == old(linesUsedInChallenge) + 1 && interactions == old(interactions) + [view] &&
              outbox == old(outbox) + (if embedded then [LinesUsed(linesUsedInChallenge, challengeSerial, now)] else []))
    {
      Track(HintView(stepIndex, now - startTime), now);
    }

    /** `trackCodeOptionView`. */
    method TrackCodeOptionView(stepIndex: nat, optionIndex: nat, isCorrect: bool, now: int)
      requires Valid()
      modifies this`linesUsedInChallenge, this`viewedOptions, this`interactions, this`outbox
      ensures Valid() && old(linesUsedInChallenge) <= linesUsedInChallenge
      ensures var view := CodeView(stepIndex, optionIndex, isCorrect, now - startTime);
        && (KeyOf(view) in old(viewedOptions) ==>
              linesUsedInChallenge == old(linesUsedInChallenge) && interactions == old(interactions) && outbox == old(outbox))
        && (KeyOf(view) !in old(viewedOptions) ==>
              linesUsedInChallenge == old(linesUsedInChallenge) + 1 && interactions == old(interactions) + [view] &&
              outbox == old(outbox) + (if embedded then [LinesUsed(linesUsedInChallenge, challengeSerial, now)] else []))
    {
      Track(CodeView(stepIndex, optionIndex, isCorrect, now - startTime), now);
    }

    /** `trackDistractorView`. */
    method TrackDistractorView(stepIndex: nat, distractorIndex: nat, now: int)
      requires Valid()
      modifies this`linesUsedInChallenge, this`viewedOptions, this`interactions, this`outbox
      ensures Valid() && old(linesUsedInChallenge) <= linesUsedInChallenge
      ensures var view := DistractorView(stepIndex, distractorIndex, now - startTime);
        && (KeyOf(view) in old(viewedOptions) ==>
              linesUsedInChallenge == old(linesUsedInChallenge) && interactions == old(interactions) && outbox == old(outbox))
        && (KeyOf(view) !in old(viewedOptions) ==>
              linesUsedInChallenge == old(linesUsedInChallenge) + 1 && interactions == old(interactions) + [view] &&
              outbox == old(outbox) + (if embedded then [LinesUsed(linesUsedInChallenge, challengeSerial, now)] else []))
    {
      Track(DistractorView(stepIndex, distractorIndex, now - startTime), now);
    }

    /** A view is charged exactly when nothing the user viewed before views the same thing. */
    lemma ChargedIffNew(view: Interaction)
      requires Valid()
      ensures KeyOf(view) !in viewedOptions <==> forall i :: 0 <= i < |interactions| ==> !SameView(interactions[i], view)
    {
      KeySetIff(interactions, view);
    }

    /** `complete(success)`: the elapsed whole seconds formatted as "mm:ss", posted when embedded and
        saved to the completion log. A clock that reads earlier than the start gives a negative time,
        which does not read back (see `ElapsedTime.NegativeElapsed`). */
    method Complete(success: bool, now: int) returns (timeString: string)
      requires Valid()
      modifies this`outbox, this`completions
      ensures Valid()
      ensures timeString == FormatTime((now - startTime) / 1000)
      ensures startTime <= now ==> TimeToSeconds(timeString) == Some((now - startTime) / 1000)
      ensures outbox == old(outbox) + (if embedded then
        [ChallengeCompleted(success, linesUsedInChallenge, challengeSerial, timeString, interactions)] else [])
      ensures completions == AppendCapped(old(completions),
        CompletionRecord(challengeSerial, now, linesUsedInChallenge, timeString, success, |interactions|))
    {
      var completionTime := (now - startTime) / 1000;
      timeString := FormatTime(completionTime);
      if completionTime >= 0 {
        FormatTimeRoundTrip(completionTime);
      }
      if embedded {
        var m := ChallengeCompleted(success, linesUsedInChallenge, challengeSerial, timeString, interactions);
        CompletionKeepsMeter(linesUsedInChallenge, viewedOptions, interactions, outbox, m);
        outbox := outbox + [m];
      }
      SaveCompletion(timeString, success, now);
    }

    /** `saveCompletion`. */
    method SaveCompletion(timeString: string, success: bool, now: int)
      modifies this`completions
      ensures completions == AppendCapped(old(completions),
        CompletionRecord(challengeSerial, now, linesUsedInChallenge, timeString, success, |interactions|))
    {
      completions := completions + [CompletionRecord(challengeSerial, now, linesUsedInChallenge, timeString, success, |interactions|)];
      if |completions| > MaxCompletions {
        completions := completions[1..];
      }
    }

    /** `getStats`: the viewed keys counted by prefix; the three counts add up to the lines charged. */
    function GetStats(now: int): (r: Stats)
      reads this
      requires Valid()
      ensures r.linesUsed == linesUsedInChallenge
      ensures r.viewedHints + r.viewedCodes + r.viewedDistractors == r.linesUsed
      ensures r.timeElapsed == (now - startTime) / 1000
      ensures r.viewedHints == ViewsOfKind(interactions, HintKind)
      ensures r.viewedCodes == ViewsOfKind(interactions, CodeKind)
      ensures r.viewedDistractors == ViewsOfKind(interactions, CommentKind)
    {
      var hints := set k | k in viewedOptions && IsHintKey(k);
      var codes := set k | k in viewedOptions && IsCodeKey(k);
      var comments := set k | k in viewedOptions && IsCommentKey(k);
      PrefixesPartition(interactions);
      KindCount(interactions, HintKind);
      KindCount(interactions, CodeKind);
      KindCount(interactions, CommentKind);
      assert hints == KeysOfKind(viewedOptions, HintKind);
      assert codes == KeysOfKind(viewedOptions, CodeKind);
      assert comments == KeysOfKind(viewedOptions, CommentKind);
      Stats(linesUsedInChallenge, |hints|, |codes|, |comments|, (now - startTime) / 1000)
    }
  }

  /** The three kinds of view, as the prefixes of their keys tell them apart. */
  datatype ViewKind = HintKind | CodeKind | CommentKind

  function KindOf(x: Interaction): ViewKind {
    match x
    case HintView(_, _) => HintKind
    case CodeView(_, _, _, _) => CodeKind
    case DistractorView(_, _, _) => CommentKind
  }

  predicate HasKindPrefix(k: string, kind: ViewKind) {
    match kind
    case HintKind => IsHintKey(k)
    case CodeKind => IsCodeKey(k)
    case CommentKind => IsCommentKey(k)
  }

  /** The charged keys with the prefix of one kind. */
  function KeysOfKind(keys: set<string>, kind: ViewKind): set<string> {
    set k | k in keys && HasKindPrefix(k, kind)
  }

  /** The number of recorded views of one kind. */
  function ViewsOfKind(xs: seq<Interaction>, kind: ViewKind): nat {
    if xs == [] then 0 else ViewsOfKind(xs[..|xs| - 1], kind) + (if KindOf(xs[|xs| - 1]) == kind then 1 else 0)
  }

  /** There are never more charged keys than recorded views. */
  lemma {:induction false} KeySetSize(xs: seq<Interaction>)
    ensures |KeySet(xs)| <= |xs|
  {
    if xs != [] {
      KeySetSize(xs[..|xs| - 1]);
    }
  }

  /** A key's prefix names the kind of the view it was made for. */
  lemma KindPrefix(x: Interaction, kind: ViewKind)
    ensures HasKindPrefix(KeyOf(x), kind) <==> KindOf(x) == kind
  {
    KeyPrefix(x);
  }

  /** Adding one key adds it to its own kind's part only. */
  lemma KeysOfKindAdd(keys: set<string>, k: string, kind: ViewKind)
    ensures KeysOfKind(keys + {k}, kind) == KeysOfKind(keys, kind) + (if HasKindPrefix(k, kind) then {k} else {})
  {
  }

  /** When every recorded view has its own key, the keys with a kind's prefix are as many as the views of
      that kind. */
  lemma {:induction false} KindCount(xs: seq<Interaction>, kind: ViewKind)
    requires |KeySet(xs)| == |xs|
    ensures |KeysOfKind(KeySet(xs), kind)| == ViewsOfKind(xs, kind)
  {
    if xs != [] {
      var init := xs[..|xs| - 1];
      var x := xs[|xs| - 1];
      var k := KeyOf(x);
      KeySetSize(init);
      assert k !in KeySet(init) && |KeySet(init)| == |init| by {
        assert KeySet(xs) == KeySet(init) + {k};
      }
      KindCount(init, kind);
      KindPrefix(x, kind);
      KeysOfKindAdd(KeySet(init), k, kind);
      assert k !in KeysOfKind(KeySet(init), kind);
    }
  }

  /** The three prefixes split the charged keys into disjoint parts that cover them all. */
  lemma PrefixesPartition(xs: seq<Interaction>)
    ensures var keys := KeySet(xs);
      |keys| == |set k | k in keys && IsHintKey(k)| + |set k | k in keys && IsCodeKey(k)| + |set k | k in keys && IsCommentKey(k)|
  {
    var keys := KeySet(xs);
    var hints := set k | k in keys && IsHintKey(k);
    var codes := set k | k in keys && IsCodeKey(k);
    var comments := set k | k in keys && IsCommentKey(k);
    forall k | k in keys
      ensures (IsHintKey(k) && !IsCodeKey(k) && !IsCommentKey(k)) || (!IsHintKey(k) && IsCodeKey(k) && !IsCommentKey(k)) ||
              (!IsHintKey(k) && !IsCodeKey(k) && IsCommentKey(k))
    {
      KeySetMembers(xs, k);
      var i :| 0 <= i < |xs| && KeyOf(xs[i]) == k;
      KeyPrefix(xs[i]);
    }
    assert hints * codes == {} && hints * comments == {} && codes * comments == {};
    assert keys == hints + codes + comments;
  }
}
