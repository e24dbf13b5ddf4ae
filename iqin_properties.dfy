/**
 * What the iqin block guarantees, proved about the state machine in IqinSpec.
 */
module IqinProperties {
  import opened VsgApi
  import opened IqinSpec

  // ---------------------------------------------------------------------
  // ERROR_CHECK and runs of checked calls
  // ---------------------------------------------------------------------

  /** The first fatal status of a concatenation is the first one of the
      front part if it has one, and is found in the back part otherwise. */
  lemma {:induction false} FirstFatalAppend(a: seq<VsgStatus>, b: seq<VsgStatus>)
    ensures FirstFatal(a + b) == if FirstFatal(a) < |a| then FirstFatal(a) else |a| + FirstFatal(b)
  {
    if a == [] {
      assert a + b == b;
    } else {
      assert (a + b)[0] == a[0] && (a + b)[1..] == a[1..] + b;
      if Classify(a[0]) != Fatal {
        FirstFatalAppend(a[1..], b);
      }
    }
  }

  /** A run of checked calls on a live process makes the calls in order up to
      and including the first one answered with a fatal status, and halts
      exactly when there is such a call. */
  lemma {:induction false} IssueEffect(s: Block, ops: seq<DeviceOp>, sts: seq<VsgStatus>)
    requires |ops| == |sts| && !s.halted
    ensures Issue(s, ops, sts) == s.(trace := s.trace + ops[..Issued(sts)],
                                     halted := FirstFatal(sts) < |sts|)
    decreases |ops|
  {
    if ops != [] {
      var c := Call(s, ops[0], sts[0]);
      if Classify(sts[0]) == Fatal {
        assert ops[..Issued(sts)] == [ops[0]];
      } else {
        IssueEffect(c, ops[1..], sts[1..]);
        assert ops[..Issued(sts)] == [ops[0]] + ops[1..][..Issued(sts[1..])];
      }
    }
  }

  /** A fatal status ends the process: once halted, every operation leaves
      the block exactly as it is, so no further device call is made. */
  lemma HaltedIsAbsorbing(s: Block, e: Edit, n: nat, input: seq<Complex>, r: WorkReplies)
    requires s.halted && Inv(s) && n <= |input|
    ensures Set(s, e) == s && Configure(s, r.config) == s
    ensures Work(s, n, input, r) == s && Destroy(s) == s
  {
  }

  // ---------------------------------------------------------------------
  // Construction
  // ---------------------------------------------------------------------

  /** The constructor stores the four values, raises the change flag, holds
      no buffer, and talks to the device only to open it and then read its
      serial number; a fatal open means the serial number is never read. */
  lemma ConstructEffect(cfg: Config, openStatus: VsgStatus, serialStatus: VsgStatus)
    ensures var s := Construct(cfg, openStatus, serialStatus);
      && Inv(s) && s.cfg == cfg && s.paramChanged && s.buffer.None? && s.allocs == 0
      && s.trace == (if Classify(openStatus) == Fatal then [OpenDevice] else [OpenDevice, GetSerialNumber])
      && (s.halted <==> Classify(openStatus) == Fatal || Classify(serialStatus) == Fatal)
  {
  }

  // ---------------------------------------------------------------------
  // Setters
  // ---------------------------------------------------------------------

  /** Each setter, set_repeat included, changes exactly its own field and
      raises the change flag; the buffer, the trace and the rest stay. */
  lemma SetEffect(s: Block, e: Edit)
    requires !s.halted
    ensures var t := Set(s, e);
      && t.paramChanged
      && t == s.(cfg := t.cfg, paramChanged := true)
      && t.cfg.frequency == (if e.SetFrequencyTo? then e.frequency else s.cfg.frequency)
      && t.cfg.level == (if e.SetLevelTo? then e.level else s.cfg.level)
      && t.cfg.srate == (if e.SetSrateTo? then e.srate else s.cfg.srate)
      && t.cfg.repeat == (if e.SetRepeatTo? then e.repeat else s.cfg.repeat)
  {
  }

  /** The value a field ends up with after a series of setter calls: the one
      given by the last call that sets it, or its value before the series. */
  function LastFrequency(es: seq<Edit>, before: Float64): Float64
    decreases |es|
  {
    if es == [] then before
    else if es[|es| - 1].SetFrequencyTo? then es[|es| - 1].frequency
    else LastFrequency(es[..|es| - 1], before)
  }

  function LastLevel(es: seq<Edit>, before: Float64): Float64
    decreases |es|
  {
    if es == [] then before
    else if es[|es| - 1].SetLevelTo? then es[|es| - 1].level
    else LastLevel(es[..|es| - 1], before)
  }

  function LastSrate(es: seq<Edit>, before: Float64): Float64
    decreases |es|
  {
    if es == [] then before
    else if es[|es| - 1].SetSrateTo? then es[|es| - 1].srate
    else LastSrate(es[..|es| - 1], before)
  }

  function LastRepeat(es: seq<Edit>, before: bool): bool
    decreases |es|
  {
    if es == [] then before
    else if es[|es| - 1].SetRepeatTo? then es[|es| - 1].repeat
    else LastRepeat(es[..|es| - 1], before)
  }

  /** The configuration after a series of setter calls: each field holds the
      latest value given to it. */
  function Latest(cfg: Config, es: seq<Edit>): Config
  {
    Config(LastFrequency(es, cfg.frequency), LastLevel(es, cfg.level),
           LastSrate(es, cfg.srate), LastRepeat(es, cfg.repeat))
  }

  /** Any number of setter calls leave the block holding the latest value of
      each field, raise the change flag if there was at least one call, and
      touch nothing else. */
  lemma {:induction false} SetAllEffect(s: Block, es: seq<Edit>)
    requires !s.halted
    ensures SetAll(s, es) == s.(cfg := Latest(s.cfg, es), paramChanged := s.paramChanged || es != [])
  {
    if es != [] {
      SetAllEffect(s, es[..|es| - 1]);
    }
  }

  // ---------------------------------------------------------------------
  // configure()
  // ---------------------------------------------------------------------

  /** configure() sets frequency, then level, then sample rate, with the
      stored values; it stops after a call answered with a fatal status. */
  lemma ConfigureEffect(s: Block, r: ConfigReplies)
    requires !s.halted
    ensures var c := Configure(s, r);
      && c == s.(trace := c.trace, halted := c.halted)
      && c.trace == s.trace + ConfigureOps(s.cfg)[..Issued(ConfigStatuses(r))]
      && (c.halted <==> Classify(r.frequency) == Fatal || Classify(r.level) == Fatal
                        || Classify(r.srate) == Fatal)
      && (!c.halted ==> c.trace == s.trace + [SetFrequency(s.cfg.frequency),
                                             SetLevel(s.cfg.level),
                                             SetSampleRate(s.cfg.srate)])
  {
    IssueEffect(s, ConfigureOps(s.cfg), ConfigStatuses(r));
  }

  /** configure() as the three checked calls it makes, one after another. */
  lemma ConfigureSteps(s: Block, r: ConfigReplies)
    requires !s.halted
    ensures var c1 := Call(s, SetFrequency(s.cfg.frequency), r.frequency);
      var c2 := Call(c1, SetLevel(s.cfg.level), r.level);
      Configure(s, r) == if c1.halted then c1 else if c2.halted then c2
                         else Call(c2, SetSampleRate(s.cfg.srate), r.srate)
  {
    var ops, sts := ConfigureOps(s.cfg), ConfigStatuses(r);
    var c1 := Call(s, ops[0], sts[0]);
    assert Configure(s, r) == Issue(c1, ops[1..], sts[1..]);
    if !c1.halted {
      var c2 := Call(c1, ops[1], sts[1]);
      assert ops[1..][0] == ops[1] && sts[1..][0] == sts[1];
      assert ops[1..][1..] == [ops[2]] && sts[1..][1..] == [sts[2]];
      assert Issue(c1, ops[1..], sts[1..]) == Issue(c2, [ops[2]], [sts[2]]);
      if !c2.halted {
        assert Issue(c2, [ops[2]], [sts[2]]) == Issue(Call(c2, ops[2], sts[2]), [], []);
      }
    }
  }

  // ---------------------------------------------------------------------
  // work()
  // ---------------------------------------------------------------------

  /** The device calls a work() call on `s` would make if every status were
      harmless: configure()'s three when the change flag is up, then one
      waveform submission of the `n` input items. */
  function WorkOps(s: Block, n: nat, input: seq<Complex>): seq<DeviceOp>
    requires n <= |input|
  {
    (if s.paramChanged then ConfigureOps(s.cfg) else []) + [SubmitOp(s.cfg.repeat, input[..n], n)]
  }

  function WorkStatuses(s: Block, r: WorkReplies): seq<VsgStatus>
  {
    (if s.paramChanged then ConfigStatuses(r.config) else []) + [r.submit]
  }

  /** work()'s allocation and copy: afterwards the buffer exists, holds at
      least `n` entries, the first `n` being the input items, and `d_len`
      holds `n != 0`; only the buffer, its tag and the counts change. */
  lemma StageEffect(s: Block, n: nat, input: seq<Complex>)
    requires Inv(s) && n <= |input|
    ensures var b := Stage(s, n, input);
      && Inv(b)
      && b.buffer.Some? && n <= |b.buffer.value| && b.buffer.value[..n] == input[..n]
      && b.lenFlag == (n != 0)
      && b == s.(buffer := b.buffer, lenFlag := b.lenFlag, allocs := b.allocs, frees := b.frees)
  {
  }

  /** work()'s device calls: configure() at most once and only when the change
      flag was up, then exactly one waveform submission of the `n` input items,
      RepeatWaveform when the repeat flag is set and OutputWaveform otherwise;
      the calls stop at the first fatal status. A work() call that returns
      leaves the change flag down and the configuration as it was. */
  lemma {:induction false} WorkTrace(s: Block, n: nat, input: seq<Complex>, r: WorkReplies)
    requires Inv(s) && n <= |input| && !s.halted
    ensures var w := Work(s, n, input, r);
      && Inv(w)
      && w.trace == s.trace + WorkOps(s, n, input)[..Issued(WorkStatuses(s, r))]
      && (w.halted <==> FirstFatal(WorkStatuses(s, r)) < |WorkStatuses(s, r)|)
      && w.cfg == s.cfg
      && (!w.halted ==> !w.paramChanged)
  {
    var cops := if s.paramChanged then ConfigureOps(s.cfg) else [];
    var csts := if s.paramChanged then ConfigStatuses(r.config) else [];
    var sub := SubmitOp(s.cfg.repeat, input[..n], n);
    assert WorkOps(s, n, input) == cops + [sub];
    assert WorkStatuses(s, r) == csts + [r.submit];
    FirstFatalAppend(csts, [r.submit]);
    var c := if s.paramChanged then Configure(s, r.config) else s;
    if s.paramChanged {
      IssueEffect(s, cops, csts);
    }
    assert c == s.(trace := s.trace + cops[..Issued(csts)], halted := FirstFatal(csts) < |csts|);
    if c.halted {
      assert (cops + [sub])[..Issued(csts + [r.submit])] == cops[..Issued(csts)];
    } else {
      assert Issued(csts) == |csts| && cops[..Issued(csts)] == cops;
      var b := Stage(c.(paramChanged := false), n, input);
      StageEffect(c.(paramChanged := false), n, input);
      assert b.buffer.value[..n] == input[..n];
      IssueEffect(b, [sub], [r.submit]);
      assert (cops + [sub])[..Issued(csts + [r.submit])] == cops + [sub][..Issued([r.submit])];
    }
  }

  /** A work() call in which no call it makes is answered with a fatal status
      makes every call of `WorkOps` and returns with the change flag down. The
      configure replies matter only when the change flag is up. */
  lemma WorkWithoutFatalStatus(s: Block, n: nat, input: seq<Complex>, r: WorkReplies)
    requires Inv(s) && n <= |input| && !s.halted
    requires forall i :: 0 <= i < |WorkStatuses(s, r)| ==> Classify(WorkStatuses(s, r)[i]) != Fatal
    ensures var w := Work(s, n, input, r);
      !w.halted && !w.paramChanged && w.trace == s.trace + WorkOps(s, n, input)
  {
    WorkTrace(s, n, input, r);
  }

  /** work() as the steps it takes one after another. */
  lemma WorkSteps(s: Block, n: nat, input: seq<Complex>, r: WorkReplies)
    requires Inv(s) && n <= |input| && !s.halted
    ensures var c := if s.paramChanged then Configure(s, r.config) else s;
      Work(s, n, input, r)
        == if c.halted then c
           else
             var b := Stage(c.(paramChanged := false), n, input);
             Call(b, SubmitOp(s.cfg.repeat, input[..n], n), r.submit)
  {
    var c := if s.paramChanged then Configure(s, r.config) else s;
    if !c.halted {
      var b := Stage(c.(paramChanged := false), n, input);
      StageEffect(c.(paramChanged := false), n, input);
      assert Issue(b, [SubmitOp(s.cfg.repeat, input[..n], n)], [r.submit])
          == Issue(Call(b, SubmitOp(s.cfg.repeat, input[..n], n), r.submit), [], []);
    }
  }

  /** work()'s buffer handling: when it returns, the buffer holds at least
      `n` entries, the first `n` of which are the input items in order, and
      `d_len` holds `n != 0`; a new buffer of exactly `n` entries was
      allocated (and the old one, if any, released) exactly when the pointer
      was null or `n` differed from the 0/1 value of `d_len`. */
  lemma WorkBuffer(s: Block, n: nat, input: seq<Complex>, r: WorkReplies)
    requires Inv(s) && n <= |input| && !s.halted
    ensures var w := Work(s, n, input, r);
      !w.halted ==>
        && w.buffer.Some? && n <= |w.buffer.value| && w.buffer.value[..n] == input[..n]
        && w.lenFlag == (n != 0)
        && (w.allocs == s.allocs + 1 <==> NeedsAlloc(s, n))
        && w.frees == s.frees + (if NeedsAlloc(s, n) && s.buffer.Some? then 1 else 0)
        && (NeedsAlloc(s, n) ==> |w.buffer.value| == n)
        && (!NeedsAlloc(s, n) ==> w.buffer == Some(input[..n] + s.buffer.value[n..]))
  {
  }

  /** Because `d_len` is a `bool`, the buffer is reused only for batches of
      zero or one item: every work() call on more than one item allocates. */
  lemma ReuseOnlyForZeroOrOne(s: Block, n: nat)
    ensures !NeedsAlloc(s, n) ==> s.buffer.Some? && (n == 0 || n == 1)
    ensures n > 1 ==> NeedsAlloc(s, n)
  {
  }

  /** Of two work() calls in a row on the same number `n` of items, the
      second allocates a new buffer exactly when `n > 1`. */
  lemma EqualBatchesReallocate(s: Block, n: nat, in1: seq<Complex>, in2: seq<Complex>,
                               r1: WorkReplies, r2: WorkReplies)
    requires Inv(s) && !s.halted && n <= |in1| && n <= |in2|
    requires !Work(s, n, in1, r1).halted
    ensures var w1 := Work(s, n, in1, r1);
      var w2 := Work(w1, n, in2, r2);
      !w2.halted ==> (w2.allocs == w1.allocs + 1 <==> n > 1) && (n <= 1 ==> w2.allocs == w1.allocs)
  {
  }

  /** The first work() call after construction always runs configure(), with
      the values the block was constructed with, before submitting. */
  lemma FirstWorkConfigures(cfg: Config, openStatus: VsgStatus, serialStatus: VsgStatus,
                            n: nat, input: seq<Complex>, r: WorkReplies)
    requires n <= |input|
    requires !Construct(cfg, openStatus, serialStatus).halted
    ensures var w := Work(Construct(cfg, openStatus, serialStatus), n, input, r);
      w.trace == [OpenDevice, GetSerialNumber]
                 + (ConfigureOps(cfg) + [SubmitOp(cfg.repeat, input[..n], n)])
                         [..Issued(ConfigStatuses(r.config) + [r.submit])]
  {
    var c := Construct(cfg, openStatus, serialStatus);
    ConstructEffect(cfg, openStatus, serialStatus);
    WorkTrace(c, n, input, r);
  }

  /** Two work() calls with no setter call in between: the second one makes
      no configuration call, only its waveform submission. */
  lemma SecondWorkDoesNotConfigure(s: Block, n1: nat, in1: seq<Complex>, r1: WorkReplies,
                                   n2: nat, in2: seq<Complex>, r2: WorkReplies)
    requires Inv(s) && !s.halted && n1 <= |in1| && n2 <= |in2|
    requires !Work(s, n1, in1, r1).halted
    ensures var w1 := Work(s, n1, in1, r1);
      Work(w1, n2, in2, r2).trace
        == w1.trace + [SubmitOp(s.cfg.repeat, in2[..n2], n2)]
  {
    var w1 := Work(s, n1, in1, r1);
    WorkTrace(s, n1, in1, r1);
    WorkTrace(w1, n2, in2, r2);
  }

  /** Any number of setter calls between two work() calls lead to exactly one
      configure() in the second, carrying the latest value of each field, and
      its waveform goes to the entry point the latest repeat value selects. */
  lemma Coalescing(s: Block, n1: nat, in1: seq<Complex>, r1: WorkReplies,
                   es: seq<Edit>, n2: nat, in2: seq<Complex>, r2: WorkReplies)
    requires Inv(s) && !s.halted && n1 <= |in1| && n2 <= |in2| && es != []
    requires !Work(s, n1, in1, r1).halted
    ensures var w1 := Work(s, n1, in1, r1);
      var latest := Latest(s.cfg, es);
      Work(SetAll(w1, es), n2, in2, r2).trace
        == w1.trace + (ConfigureOps(latest) + [SubmitOp(latest.repeat, in2[..n2], n2)])
                      [..Issued(ConfigStatuses(r2.config) + [r2.submit])]
  {
    var w1 := Work(s, n1, in1, r1);
    WorkTrace(s, n1, in1, r1);
    SetAllEffect(w1, es);
    WorkTrace(SetAll(w1, es), n2, in2, r2);
  }

  /** set_repeat raises the change flag like the other setters, so a work()
      call after it reconfigures the device even though no frequency, level
      or sample rate changed. */
  lemma SetRepeatReconfigures(s: Block, b: bool, n: nat, input: seq<Complex>, r: WorkReplies)
    requires Inv(s) && !s.halted && n <= |input|
    ensures var w := Work(Set(s, SetRepeatTo(b)), n, input, r);
      |w.trace| > |s.trace| && w.trace[|s.trace|] == SetFrequency(s.cfg.frequency)
  {
    var t := Set(s, SetRepeatTo(b));
    WorkTrace(t, n, input, r);
    FirstFatalAppend(ConfigStatuses(r.config), [r.submit]);
  }

  // ---------------------------------------------------------------------
  // Destructor and the invariant
  // ---------------------------------------------------------------------

  /** The destructor aborts and then closes the device whatever came before,
      and releases the buffer only when the pointer is not null; after it,
      as many buffers have been released as were ever allocated. */
  lemma DestroyEffect(s: Block)
    requires Inv(s) && !s.halted
    ensures var d := Destroy(s);
      && d.trace == s.trace + [Abort, CloseDevice]
      && (d.frees == s.frees + 1 <==> s.buffer.Some?)
      && d.frees == d.allocs
      && d.cfg == s.cfg && !d.halted && Inv(d)
  {
  }
}
