# gr-vsg60 `iqin` block — a Dafny model

This project models `iqin_impl`, the GNU Radio block of gr-vsg60 that forwards
batches of complex I/Q samples to a Signal Hound VSG60 vector signal generator
through the vendor's C interface. The block keeps a configuration (frequency,
level, sample rate, repeat flag) and a change flag. Its setters record new
values. Each `work()` call reconfigures the device when the flag is up, copies
the batch into a heap buffer it keeps between calls, and submits the buffer to
either the "play once" or the "play in a loop" entry point. `ERROR_CHECK`
aborts the process on any negative device status.

The vendor library has no bodies in the repository. Each call the block makes
on the device handle is an event (`VsgApi.DeviceOp`) appended to a ghost trace
of device calls. The status
the device answers with is an input of the operation that makes the call.

Files:

- `vsg_api.dfy` (module `VsgApi`): the `VsgStatus` codes and the device-call
  events. Doubles are kept as opaque 64-bit patterns and samples as pairs of
  32-bit patterns, because the block never computes on them.
- `iqin_spec.dfy` (module `IqinSpec`): the block as a state machine over
  values. `Block` holds the configuration, the change flag, the buffer (or
  null) and the `bool` length tag `d_len`. It also holds what is observed: the
  trace, whether `abort()` has run, and counts of buffers allocated and
  released. `Construct`, `Set`, `Configure`, `Work` and `Destroy` give each
  operation's next state.
- `iqin_properties.dfy` (module `IqinProperties`): the lemmas that state what
  the block guarantees.
- `iqin_impl.dfy` (module `IqinImpl`): the block as the class it is in the
  source. It has the same fields, an `array?` for `d_buffer`, and a `for` loop
  for the copy. Every method except `ErrorCheck`, which only sets the halted
  field, is proved to move `Model()` exactly as the matching `IqinSpec`
  function does. `ExampleSession` shows a client that
  relies on those contracts alone.

Behaviour that follows from the code as written:

- `set_repeat` raises the change flag like the other setters
  (lib/iqin_impl.cc:109). So a `work()` call after `set_repeat` runs
  `configure()` again (`SetRepeatReconfigures`).
- `d_len` is declared `bool` (lib/iqin_impl.h:44). `d_len = noutput_items`
  therefore stores `noutput_items != 0`, and the reuse test compares the item
  count with 0 or 1. The buffer is reused only for batches of zero or one
  item, and two equal batches of more than one item allocate twice
  (`ReuseOnlyForZeroOrOne`, `EqualBatchesReallocate`). The copy is still
  memory-safe. The invariant `IqinSpec.Inv` says that `d_len` is true exactly
  when the buffer is non-empty, so a reused buffer always has at least
  `noutput_items` entries. Dafny checks every index of the copy loop.
- A failed configuration is not retried on the next batch. A negative status
  aborts the process, and a positive one is only a warning, after which
  `work()` clears the flag as usual.

## Model

| member | source | states |
|---|---|---|
| `VsgApi.CodeSigns` | include/vsg60/vsg_api.h:59-80 | The status codes are pairwise distinct; exactly the ten `…Err` statuses are negative, only `vsgNoError` is zero, and only `vsgAlreadyFlushed` and `vsgSettingClamped` are positive. |
| `IqinSpec.Classify` | lib/iqin_impl.cc:42-48 | ERROR_CHECK does nothing for `vsgNoError`, warns and goes on for the two positive statuses, and aborts for every named error status. |
| `IqinSpec.FirstFatal` | lib/iqin_impl.cc:42-48 | The index it returns is the first status that makes ERROR_CHECK abort: every earlier status is harmless, and it is `|sts|` when no status is fatal. |
| `IqinSpec.Issued` | lib/iqin_impl.cc:42-48 | The number of checked calls made is all of them unless some status is fatal. |
| `IqinSpec.Call` | lib/iqin_impl.cc:42-48 | One checked device call: the call is recorded, the process aborts exactly when it was already aborted or the status is a named error, and nothing else changes. |
| `IqinSpec.Issue` | lib/iqin_impl.cc:42-48 | A run of checked device calls changes only the trace and the halted flag, adds at most one trace entry per call, and does nothing once the process has aborted. |
| `IqinProperties.FirstFatalAppend` | lib/iqin_impl.cc:42-48 | In two runs of calls made one after the other, the first fatal status is the first one of the front run if it has one, and otherwise the first one of the back run. |
| `IqinProperties.IssueEffect` | lib/iqin_impl.cc:42-48 | A run of checked calls on a live process makes the calls in order, up to and including the first one answered with a fatal status, and halts exactly when such a status occurs. |
| `IqinProperties.HaltedIsAbsorbing` | lib/iqin_impl.cc:46 | After `abort()`, no setter, configure, work or destructor changes anything or makes a device call. |
| `IqinImpl.Iqin.ErrorCheck` | lib/iqin_impl.cc:42-48 | The process is halted afterwards exactly when it was before or the status is fatal. |
| `IqinImpl.Iqin.Invoke` | lib/iqin_impl.cc:42-48 | A device call is appended to the trace and its status is checked by ERROR_CHECK; the new state is `IqinSpec.Call` of the old one. |
| `IqinImpl.Iqin.constructor` | lib/iqin_impl.cc:50-74 | The new object is `IqinSpec.Construct` of its arguments and the two statuses, and it holds no buffer. |
| `IqinSpec.Construct` | lib/iqin_impl.cc:50-74 | A new block satisfies the invariant, stores the configuration it was given, has the change flag up, holds no buffer and has allocated none, and has made open, or open then get-serial. |
| `IqinProperties.ConstructEffect` | lib/iqin_impl.cc:50-74 | A new block stores its arguments, has the change flag up, has no buffer, and has made exactly the calls open and then get-serial; a fatal open means the serial number is never read. |
| `IqinImpl.Iqin.SetFrequency` | lib/iqin_impl.cc:84-89 | The new state is `IqinSpec.Set` with the new frequency; the buffer is untouched. |
| `IqinImpl.Iqin.SetLevel` | lib/iqin_impl.cc:91-96 | The new state is `IqinSpec.Set` with the new level; the buffer is untouched. |
| `IqinImpl.Iqin.SetSrate` | lib/iqin_impl.cc:98-103 | The new state is `IqinSpec.Set` with the new sample rate; the buffer is untouched. |
| `IqinImpl.Iqin.SetRepeat` | lib/iqin_impl.cc:105-110 | The new state is `IqinSpec.Set` with the new repeat flag, which raises the change flag too; the buffer is untouched. |
| `IqinSpec.Set` | lib/iqin_impl.cc:84-110 | A setter changes nothing but the configuration and the change flag. |
| `IqinSpec.SetAll` | lib/iqin_impl.cc:84-110 | Any number of setter calls change nothing but the configuration and the change flag. |
| `IqinProperties.SetEffect` | lib/iqin_impl.cc:84-110 | Each setter, `set_repeat` included, changes exactly its own field and raises the change flag; the buffer, the trace and every other field stay as they were. |
| `IqinProperties.SetAllEffect` | lib/iqin_impl.cc:84-110 | After any number of setter calls, each field holds the value given by the last call that set it, the change flag is up if there was at least one call, and nothing else changes. |
| `IqinImpl.Iqin.Configure` | lib/iqin_impl.cc:112-120 | The new state is `IqinSpec.Configure` of the old one; the buffer is untouched. |
| `IqinSpec.Configure` | lib/iqin_impl.cc:112-120 | configure() changes only the trace and the halted flag, makes at most its three calls, and does nothing once the process has aborted. |
| `IqinProperties.ConfigureSteps` | lib/iqin_impl.cc:112-120 | configure() is three checked calls in a row (set frequency, set level, set sample rate), and it stops at the first fatal status. |
| `IqinProperties.ConfigureEffect` | lib/iqin_impl.cc:112-120 | configure() appends set-frequency, set-level and set-sample-rate with the stored values, in that order, up to the first fatal status. It halts exactly when one of the three statuses is fatal, and otherwise appends all three calls. |
| `IqinImpl.Iqin.Work` | lib/iqin_impl.cc:122-155 | The new state is `IqinSpec.Work` of the old one. The result is the item count unless the process aborted. A buffer that changed is a fresh allocation. When the call returns, the array was replaced exactly when the pointer was null or `noutput_items` differed from the 0/1 value of `d_len`. |
| `IqinImpl.Iqin.LoadBuffer` | lib/iqin_impl.cc:135-145 | Allocation and copy loop: the new state is `IqinSpec.Stage` of the old one, the buffer holds at least `noutput_items` entries, and a new buffer is a fresh allocation. The array is replaced exactly when the pointer is null or `noutput_items` differs from the 0/1 value of `d_len`, and is kept otherwise. |
| `IqinSpec.NeedsAlloc` | lib/iqin_impl.cc:136 | A null pointer and every batch of more than one item need a new buffer; for a held buffer and zero or one item, a new one is needed exactly when the batch is empty and the buffer is not, or the other way round. |
| `IqinSpec.Stage` | lib/iqin_impl.cc:135-145 | Allocating and copying keeps the invariant: `d_len` says whether the buffer is non-empty, and the number of buffers allocated is the number released plus one while a buffer is held. |
| `IqinSpec.Work` | lib/iqin_impl.cc:122-155 | A work() call keeps that invariant. |
| `IqinSpec.SubmitOp` | lib/iqin_impl.cc:148-152 | The submission carries the buffer's `noutput_items` items and that count, and is the repeating call exactly when the repeat flag is set, the one-shot call otherwise. |
| `IqinProperties.StageEffect` | lib/iqin_impl.cc:135-145 | After the allocation and copy, the buffer exists and holds at least `noutput_items` entries. Its first `noutput_items` entries are the input items in order, `d_len` holds `noutput_items != 0`, and nothing outside the buffer, its tag and the allocation counts changes. |
| `IqinProperties.WorkSteps` | lib/iqin_impl.cc:129-154 | work() is configure() when the flag is up, then the allocation and copy with the flag down, then one checked submission of the `noutput_items` input items; it stops at the first abort. |
| `IqinProperties.WorkTrace` | lib/iqin_impl.cc:129-154 | A work() call makes configure()'s three calls only when the change flag was up, then exactly one waveform submission of the `noutput_items` input items, stopping at the first fatal status. The submission goes to RepeatWaveform if the repeat flag is set and to OutputWaveform otherwise. It halts exactly when a status is fatal, keeps the configuration, and leaves the flag down when it returns. |
| `IqinProperties.WorkWithoutFatalStatus` | lib/iqin_impl.cc:129-154 | A work() call in which no status of a call it makes is fatal makes all of its calls, returns, and leaves the change flag down; the configure replies count only when the change flag is up. |
| `IqinProperties.WorkBuffer` | lib/iqin_impl.cc:135-145 | When work() returns, the buffer holds at least `noutput_items` entries, and its first `noutput_items` are the input items. A new buffer of exactly `noutput_items` entries was allocated exactly when the pointer was null or `noutput_items` differed from the 0/1 value of `d_len`. In that case the old buffer, if any, is released; otherwise the old buffer keeps its entries beyond `noutput_items`. |
| `IqinProperties.ReuseOnlyForZeroOrOne` | lib/iqin_impl.cc:136 | The buffer is reused only for a batch of zero or one item, and every batch of more than one item allocates. |
| `IqinProperties.EqualBatchesReallocate` | lib/iqin_impl.cc:136-140 | Of two work() calls in a row on the same number of items, the second allocates a new buffer exactly when that number is greater than one. |
| `IqinProperties.FirstWorkConfigures` | lib/iqin_impl.cc:130-133 | The first work() call after construction runs configure() with the constructor's values before it submits the waveform. |
| `IqinProperties.SecondWorkDoesNotConfigure` | lib/iqin_impl.cc:130-133 | A work() call that follows a returning work() with no setter call in between makes only its waveform submission. |
| `IqinProperties.Coalescing` | lib/iqin_impl.cc:130-133 | One or more setter calls between two work() calls lead to exactly one configure() in the second. That configure() carries the latest value of each field, and the submission goes to the entry point chosen by the latest repeat value. |
| `IqinProperties.SetRepeatReconfigures` | lib/iqin_impl.cc:105-110 | A work() call after `set_repeat` alone starts with a set-frequency call, whatever the device answers, because `set_repeat` raises the change flag. |
| `IqinImpl.Iqin.Destroy` | lib/iqin_impl.cc:76-82 | The new state is `IqinSpec.Destroy` of the old one. |
| `IqinSpec.Destroy` | lib/iqin_impl.cc:76-82 | The destructor keeps the configuration, only adds to the trace, and keeps the invariant; on a live process it leaves no buffer and as many releases as allocations. |
| `IqinProperties.DestroyEffect` | lib/iqin_impl.cc:76-82 | The destructor appends abort and then close, whatever happened before. It releases the buffer exactly when the pointer is not null, and afterwards as many buffers have been released as were ever allocated. |

## Left out

- Mutex and threads (`d_mutex`): setters, configure() and work() are atomic
  sequential steps. The window between configure() releasing the lock and
  work() clearing the flag, where a concurrent setter's change is lost, cannot
  arise in a sequential model.
- Console output (API version, serial number, warning and error text): it has
  no effect on the state. The two vendor calls made only to print,
  `vsgGetAPIVersion` and `vsgGetErrorString`, are not traced. A warning status
  is modelled as no state change.
- `abort()`: the process ending is the absorbing `halted` state. `IqinImpl.Iqin.Work`
  returns `Aborted` where the real call never returns.
- The device handle `d_handle` and the serial number value: every call goes to
  the one device the block opened, and the serial number is only printed.
- The statuses of `vsgAbort` and `vsgCloseDevice`: the destructor ignores them.
- Allocation failure (`std::bad_alloc` from `new[]`): not modelled; every
  allocation succeeds.
- GNU Radio plumbing: `make`, shared pointers, the io_signature port
  declaration, and the host's promise that `input_items[0]` holds at least
  `noutput_items` items. That promise becomes the `requires` of `work()`, and
  `noutput_items` is a `nat`. The port declaration says 0 inputs and 1 output
  while `work()` reads an input; that is a contract with the host runtime that
  cannot be checked here.
- Floating-point values: frequency, level, sample rate and the I/Q samples are
  bit patterns, never range-checked or computed on by the block. The range
  constants of the vendor header are not used by the block.
- The vendor library's own behaviour (USB transfer, calibration, waveform
  generation): the device is represented only by the statuses it answers with.
- `include/vsg60/iqin.h` (an abstract interface with no logic) and the Python
  docstring template are not part of this model.
- The destructor in the model also sets the buffer pointer to null, which the
  C++ destructor does not do. The object no longer exists afterwards, so the
  difference cannot be observed.
