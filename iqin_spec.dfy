/**
 * The iqin block as a state machine over values.
 *
 * `Block` holds what the C++ object holds (the configuration, the change
 * flag, the transmit buffer and its `bool` length tag) plus what the model
 * observes: the device calls made so far, whether the process has aborted,
 * and how many buffers were allocated and released. Each operation of the
 * block is a function from one `Block` to the next; the class in IqinImpl is
 * proved to follow these functions step by step.
 */
module IqinSpec {
  import opened VsgApi

  datatype Option<T> = None | Some(value: T)

  /** What ERROR_CHECK does with a status: nothing, print a warning and go
      on, or print an error and abort the process. */
  datatype Severity = Silent | Warning | Fatal

  /** ERROR_CHECK's decision: a status other than `NoError` is a warning
      unless it compares below `NoError`. */
  function Classify(status: VsgStatus): (sev: Severity)
    ensures sev == Silent <==> status == NoError
    ensures sev == Fatal <==> IsNamedError(status)
    ensures sev == Warning <==> status == AlreadyFlushed || status == SettingClamped
  {
    CodeSigns(status);
    if status != NoError then
      var isWarning := !(Code(status) < Code(NoError));
      if isWarning then Warning else Fatal
    else
      Silent
  }

  /** The index of the first status that makes ERROR_CHECK abort, or `|sts|`
      when there is none. */
  function FirstFatal(sts: seq<VsgStatus>): (k: nat)
    ensures k <= |sts|
    ensures forall i :: 0 <= i < k ==> Classify(sts[i]) != Fatal
    ensures k < |sts| ==> Classify(sts[k]) == Fatal
  {
    if sts == [] || Classify(sts[0]) == Fatal then 0 else 1 + FirstFatal(sts[1..])
  }

  /** How many of a run of checked device calls are made: all of them, or
      those up to and including the first one whose status is fatal. */
  function Issued(sts: seq<VsgStatus>): (m: nat)
    ensures m <= |sts|
    ensures m < |sts| ==> FirstFatal(sts) < |sts|
  {
    if FirstFatal(sts) < |sts| then FirstFatal(sts) + 1 else |sts|
  }

  /** The four configuration values, as stored by the block. */
  datatype Config = Config(frequency: Float64, level: Float64, srate: Float64, repeat: bool)

  datatype Block = Block(
    cfg: Config,
    paramChanged: bool,              // d_param_changed
    buffer: Option<seq<Complex>>,    // d_buffer: None is the null pointer
    lenFlag: bool,                   // d_len, which the source declares `bool`
    halted: bool,                    // ERROR_CHECK has called abort()
    trace: seq<DeviceOp>,            // every device call made so far
    allocs: nat,                     // buffers allocated with new[]
    frees: nat                       // buffers released with delete[]
  )

  /** What holds of every block the operations below can produce: the length
      tag says whether the buffer is non-empty, and the number of buffers
      allocated is the number released plus one while a buffer is held. */
  predicate Inv(s: Block)
  {
    && (s.buffer.Some? ==> (s.lenFlag <==> |s.buffer.value| != 0))
    && s.allocs == s.frees + (if s.buffer.Some? then 1 else 0)
  }

  /** One device call followed by ERROR_CHECK on its status: the call is
      recorded, and the process aborts exactly when the status is an error. */
  function Call(s: Block, op: DeviceOp, status: VsgStatus): (r: Block)
    ensures r.trace == s.trace + [op]
    ensures r.halted <==> s.halted || IsNamedError(status)
    ensures r == s.(trace := r.trace, halted := r.halted)
  {
    s.(trace := s.trace + [op], halted := s.halted || Classify(status) == Fatal)
  }

  /** A run of checked device calls: each one is made only while the process
      is still alive. Only the trace and the halted flag change. */
  function Issue(s: Block, ops: seq<DeviceOp>, sts: seq<VsgStatus>): (r: Block)
    requires |ops| == |sts|
    ensures r == s.(trace := r.trace, halted := r.halted)
    ensures s.halted ==> r == s
    ensures |s.trace| <= |r.trace| <= |s.trace| + |ops|
    decreases |ops|
  {
    if s.halted || ops == [] then s else Issue(Call(s, ops[0], sts[0]), ops[1..], sts[1..])
  }

  /** A new block: the constructor's member initialisers, then opening the
      device and reading its serial number, both checked. */
  function Initial(cfg: Config): Block
  {
    Block(cfg, true, None, false, false, [], 0, 0)
  }

  function Construct(cfg: Config, openStatus: VsgStatus, serialStatus: VsgStatus): (r: Block)
    ensures Inv(r) && r.cfg == cfg && r.paramChanged && r.buffer.None? && r.allocs == 0
    ensures r.trace == [OpenDevice] || r.trace == [OpenDevice, GetSerialNumber]
  {
    Issue(Initial(cfg), [OpenDevice, GetSerialNumber], [openStatus, serialStatus])
  }

  /** A call to one of the four setters. */
  datatype Edit =
    | SetFrequencyTo(frequency: Float64)
    | SetLevelTo(level: Float64)
    | SetSrateTo(srate: Float64)
    | SetRepeatTo(repeat: bool)

  function Apply(cfg: Config, e: Edit): Config
  {
    match e
    case SetFrequencyTo(f) => cfg.(frequency := f)
    case SetLevelTo(l) => cfg.(level := l)
    case SetSrateTo(r) => cfg.(srate := r)
    case SetRepeatTo(b) => cfg.(repeat := b)
  }

  /** Every setter, set_repeat included, stores its value and raises the
      change flag. */
  function Set(s: Block, e: Edit): (r: Block)
    ensures r == s.(cfg := r.cfg, paramChanged := r.paramChanged)
  {
    if s.halted then s else s.(cfg := Apply(s.cfg, e), paramChanged := true)
  }

  /** Several setter calls in a row, oldest first. */
  function SetAll(s: Block, es: seq<Edit>): (r: Block)
    ensures r == s.(cfg := r.cfg, paramChanged := r.paramChanged)
    decreases |es|
  {
    if es == [] then s else Set(SetAll(s, es[..|es| - 1]), es[|es| - 1])
  }

  /** The device calls of configure(), in the order it makes them. */
  function ConfigureOps(cfg: Config): seq<DeviceOp>
  {
    [SetFrequency(cfg.frequency), SetLevel(cfg.level), SetSampleRate(cfg.srate)]
  }

  /** The statuses the device answers configure()'s three calls with. */
  datatype ConfigReplies = ConfigReplies(frequency: VsgStatus, level: VsgStatus, srate: VsgStatus)

  function ConfigStatuses(r: ConfigReplies): seq<VsgStatus>
  {
    [r.frequency, r.level, r.srate]
  }

  /** configure() changes only the trace and the halted flag, and makes at
      most its three calls. */
  function Configure(s: Block, r: ConfigReplies): (c: Block)
    ensures c == s.(trace := c.trace, halted := c.halted)
    ensures |s.trace| <= |c.trace| <= |s.trace| + 3
    ensures s.halted ==> c == s
  {
    Issue(s, ConfigureOps(s.cfg), ConfigStatuses(r))
  }

  /** The statuses the device answers one work() call with. */
  datatype WorkReplies = WorkReplies(config: ConfigReplies, submit: VsgStatus)

  /** C++ converts a `bool` to the `int` 0 or 1 when comparing it with one. */
  function BoolToInt(b: bool): int
  {
    if b then 1 else 0
  }

  /** work()'s test for allocating a new buffer: the pointer is null, or the
      item count differs from `d_len` promoted to 0 or 1. */
  predicate NeedsAlloc(s: Block, n: nat)
    ensures s.buffer.None? ==> NeedsAlloc(s, n)
    ensures n > 1 ==> NeedsAlloc(s, n)
    ensures Inv(s) && s.buffer.Some? && n <= 1 ==> (NeedsAlloc(s, n) <==> (n == 0) != (|s.buffer.value| == 0))
  {
    s.buffer.None? || n != BoolToInt(s.lenFlag)
  }

  /** work()'s allocation and copy loop: a new buffer of exactly `n` entries
      when one is needed, the old one otherwise, with its first `n` entries
      overwritten by the input. */
  function Stage(s: Block, n: nat, input: seq<Complex>): (r: Block)
    requires Inv(s) && n <= |input|
    ensures Inv(r)
  {
    if NeedsAlloc(s, n) then
      s.(buffer := Some(input[..n]), lenFlag := n != 0,
         allocs := s.allocs + 1, frees := s.frees + (if s.buffer.Some? then 1 else 0))
    else
      s.(buffer := Some(input[..n] + s.buffer.value[n..]))
  }

  /** The waveform call work() makes, chosen by the repeat flag. */
  function SubmitOp(repeat: bool, iq: seq<Complex>, n: nat): (op: DeviceOp)
    ensures (op.OutputWaveform? || op.RepeatWaveform?) && op.iq == iq && op.len == n
    ensures op.RepeatWaveform? <==> repeat
  {
    if repeat then RepeatWaveform(iq, n) else OutputWaveform(iq, n)
  }

  /** One work() call on `n` input items. */
  function Work(s: Block, n: nat, input: seq<Complex>, r: WorkReplies): (w: Block)
    requires Inv(s) && n <= |input|
    ensures Inv(w)
  {
    if s.halted then s
    else
      var c := if s.paramChanged then Configure(s, r.config) else s;
      if c.halted then c
      else
        var b := Stage(c.(paramChanged := false), n, input);
        Issue(b, [SubmitOp(b.cfg.repeat, b.buffer.value[..n], n)], [r.submit])
  }

  /** The destructor: abort and close, statuses ignored, then release the
      buffer if there is one. */
  function Destroy(s: Block): (d: Block)
    ensures s.trace <= d.trace && d.cfg == s.cfg
    ensures Inv(s) ==> Inv(d)
    ensures Inv(s) && !s.halted ==> d.buffer.None? && d.frees == d.allocs
  {
    if s.halted then s
    else
      s.(trace := s.trace + [Abort, CloseDevice], buffer := None,
         frees := s.frees + (if s.buffer.Some? then 1 else 0))
  }
}
