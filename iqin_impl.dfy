/**
 * The iqin block as the object it is in the source: a class whose fields the
 * setters, configure() and work() update in place, with a heap-allocated
 * transmit buffer. Each method is proved to take the object from one state
 * of the IqinSpec state machine to the next, through `Model()`.
 */
module IqinImpl {
  import opened VsgApi
  import opened IqinSpec
  import IqinProperties

  /** What work() hands back to the scheduler: the number of items it
      handled, or nothing because ERROR_CHECK aborted the process. */
  datatype WorkResult = Returned(count: int) | Aborted

  class Iqin {
    var frequency: Float64        // d_frequency
    var level: Float64            // d_level
    var srate: Float64            // d_srate
    var repeat: bool              // d_repeat
    var paramChanged: bool        // d_param_changed
    var buffer: array?<Complex>   // d_buffer
    var lenFlag: bool             // d_len, declared `bool` in the source
    var halted: bool              // ERROR_CHECK has called abort()

    ghost var trace: seq<DeviceOp>
    ghost var allocs: nat
    ghost var frees: nat

    /** The object as a state of the IqinSpec state machine. */
    ghost function Model(): Block
      reads this, buffer
    {
      Block(Config(frequency, level, srate, repeat), paramChanged,
            if buffer == null then None else Some(buffer[..]),
            lenFlag, halted, trace, allocs, frees)
    }

    ghost predicate Valid()
      reads this, buffer
    {
      Inv(Model())
    }

    /** The constructor: store the arguments, raise the change flag, start
        without a buffer, then open the device and read its serial number. */
    constructor (frequency: Float64, level: Float64, srate: Float64, repeat: bool,
                 openStatus: VsgStatus, serialStatus: VsgStatus)
      ensures Valid() && buffer == null
      ensures Model() == Construct(Config(frequency, level, srate, repeat), openStatus, serialStatus)
    {
      this.frequency := frequency;
      this.level := level;
      this.srate := srate;
      this.repeat := repeat;
      paramChanged := true;
      buffer := null;
      lenFlag := false;
      halted := false;
      trace := [];
      allocs, frees := 0, 0;
      new;
      IqinProperties.IssueEffect(Model(), [OpenDevice, GetSerialNumber], [openStatus, serialStatus]);
      Invoke(OpenDevice, openStatus);
      if halted {
        return;
      }
      Invoke(GetSerialNumber, serialStatus);
    }

    /** ERROR_CHECK: a status below `NoError` aborts the process; any other
        status lets it go on. */
    method ErrorCheck(status: VsgStatus)
      modifies this`halted
      ensures halted == (old(halted) || Classify(status) == Fatal)
    {
      if status != NoError {
        var isWarning := !(Code(status) < Code(NoError));
        if !isWarning {
          halted := true;
        }
      }
    }

    /** One device call answered with `status`, checked by ERROR_CHECK. */
    method Invoke(ghost op: DeviceOp, status: VsgStatus)
      modifies this`trace, this`halted
      ensures trace == old(trace) + [op]
      ensures halted == (old(halted) || Classify(status) == Fatal)
      ensures Model() == Call(old(Model()), op, status)
    {
      trace := trace + [op];
      ErrorCheck(status);
    }

    method SetFrequency(frequency: Float64)
      requires Valid()
      modifies this
      ensures Valid() && buffer == old(buffer)
      ensures Model() == Set(old(Model()), SetFrequencyTo(frequency))
    {
      if halted {
        return;
      }
      this.frequency := frequency;
      paramChanged := true;
    }

    method SetLevel(level: Float64)
      requires Valid()
      modifies this
      ensures Valid() && buffer == old(buffer)
      ensures Model() == Set(old(Model()), SetLevelTo(level))
    {
      if halted {
        return;
      }
      this.level := level;
      paramChanged := true;
    }

    method SetSrate(srate: Float64)
      requires Valid()
      modifies this
      ensures Valid() && buffer == old(buffer)
      ensures Model() == Set(old(Model()), SetSrateTo(srate))
    {
      if halted {
        return;
      }
      this.srate := srate;
      paramChanged := true;
    }

    /** Like the other setters, set_repeat raises the change flag. */
    method SetRepeat(repeat: bool)
      requires Valid()
      modifies this
      ensures Valid() && buffer == old(buffer)
      ensures Model() == Set(old(Model()), SetRepeatTo(repeat))
    {
      if halted {
        return;
      }
      this.repeat := repeat;
      paramChanged := true;
    }

    /** Push frequency, level and sample rate to the device, in that order. */
    method Configure(r: ConfigReplies)
      requires Valid()
      modifies this
      ensures Valid() && buffer == old(buffer)
      ensures Model() == IqinSpec.Configure(old(Model()), r)
    {
      if halted {
        return;
      }
      ghost var s0 := Model();
      IqinProperties.ConfigureSteps(s0, r);
      Invoke(DeviceOp.SetFrequency(frequency), r.frequency);
      if halted {
        return;
      }
      Invoke(DeviceOp.SetLevel(level), r.level);
      if halted {
        return;
      }
      Invoke(DeviceOp.SetSampleRate(srate), r.srate);
    }

    /** work(): configure if a setter ran since the last configure, make sure
        the buffer can hold the `n` input items, copy them in, and submit
        them to the entry point the repeat flag selects. */
    method Work(n: nat, input: seq<Complex>, r: WorkReplies) returns (result: WorkResult)
      requires Valid() && n <= |input|
      modifies this, buffer
      ensures Valid()
      ensures Model() == IqinSpec.Work(old(Model()), n, input, r)
      ensures result == if halted then Aborted else Returned(n)
      ensures buffer != old(buffer) ==> fresh(buffer)
      ensures !halted ==> (buffer != old(buffer) <==> NeedsAlloc(old(Model()), n))
    {
      ghost var s0 := Model();
      if halted {
        return Aborted;
      }
      IqinProperties.WorkSteps(s0, n, input, r);
      if paramChanged {
        Configure(r.config);
        if halted {
          return Aborted;
        }
        paramChanged := false;
      }
      ghost var s1 := Model();
      assert s1 == (if s0.paramChanged then IqinSpec.Configure(s0, r.config) else s0).(paramChanged := false);
      LoadBuffer(n, input);
      IqinProperties.StageEffect(s1, n, input);
      assert buffer[..n] == input[..n] && repeat == s0.cfg.repeat;

      if repeat {
        Invoke(RepeatWaveform(buffer[..n], n), r.submit);
      } else {
        Invoke(OutputWaveform(buffer[..n], n), r.submit);
      }
      if halted {
        return Aborted;
      }
      return Returned(n);
    }

    /** work()'s buffer handling: allocate a buffer of exactly `n` items when
        the pointer is null or `n` differs from `d_len` promoted to 0 or 1,
        then copy the `n` input items into it, one by one. */
    method LoadBuffer(n: nat, input: seq<Complex>)
      requires Valid() && n <= |input|
      modifies this`buffer, this`lenFlag, this`allocs, this`frees, buffer
      ensures Valid() && Model() == Stage(old(Model()), n, input)
      ensures buffer != null && n <= buffer.Length
      ensures buffer != old(buffer) ==> fresh(buffer)
      ensures buffer != old(buffer) <==> NeedsAlloc(old(Model()), n)
    {
      ghost var s0 := Model();
      ghost var realloc := NeedsAlloc(s0, n);
      if buffer == null || n != BoolToInt(lenFlag) {
        if buffer != null {
          frees := frees + 1;
        }
        buffer := new Complex[n];
        lenFlag := n != 0;
        allocs := allocs + 1;
      }
      ghost var before := buffer[..];
      for i := 0 to n
        modifies buffer
        invariant buffer[..i] == input[..i]
        invariant buffer[i..] == before[i..]
      {
        buffer[i] := input[i];
      }
      assert buffer[..] == Stage(s0, n, input).buffer.value by {
        assert buffer[..] == buffer[..n] + buffer[n..];
        if realloc {
          assert |before| == n;
        }
      }
    }

    /** The destructor: abort and close the device, whatever their statuses,
        then release the buffer if there is one. */
    method Destroy()
      requires Valid()
      modifies this
      ensures Valid()
      ensures Model() == IqinSpec.Destroy(old(Model()))
    {
      if halted {
        return;
      }
      trace := trace + [Abort];
      trace := trace + [CloseDevice];
      if buffer != null {
        frees := frees + 1;
        buffer := null;
      }
    }
  }

  /** A client session: construct, run two batches of four items with a
      set_repeat(true) in between, and destroy the block, every device call
      succeeding. Because set_repeat raises the change flag, the second batch
      is preceded by a second configure(); the second batch also allocates a
      new buffer, since four differs from the 0/1 value of `d_len`. */
  method ExampleSession(f: Float64, l: Float64, sr: Float64, iq: seq<Complex>)
    requires |iq| == 4
  {
    var ok := WorkReplies(ConfigReplies(NoError, NoError, NoError), NoError);
    var blk := new Iqin(f, l, sr, false, NoError, NoError);
    IqinProperties.ConstructEffect(Config(f, l, sr, false), NoError, NoError);
    ghost var s0 := blk.Model();

    assert s0.trace == [OpenDevice, GetSerialNumber] && s0.paramChanged && !s0.halted;

    var res := blk.Work(4, iq, ok);
    IqinProperties.WorkWithoutFatalStatus(s0, 4, iq, ok);
    assert res == Returned(4) && blk.buffer != null && blk.allocs == 1;
    assert iq[..4] == iq;
    assert blk.trace == s0.trace + [SetFrequency(f), SetLevel(l), SetSampleRate(sr), OutputWaveform(iq, 4)];

    blk.SetRepeat(true);
    ghost var s2 := blk.Model();
    res := blk.Work(4, iq, ok);
    IqinProperties.WorkWithoutFatalStatus(s2, 4, iq, ok);
    assert res == Returned(4);
    assert blk.trace == s2.trace + [SetFrequency(f), SetLevel(l), SetSampleRate(sr), RepeatWaveform(iq, 4)];
    assert blk.allocs == 2;

    blk.Destroy();
    assert blk.trace[10..] == [Abort, CloseDevice];
    assert blk.frees == blk.allocs;
  }
}
