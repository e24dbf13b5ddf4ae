/**
 * The part of the VSG60 vendor interface that the iqin block uses.
 *
 * The vendor library has no bodies in this repository, so a call into it is
 * represented by a `DeviceOp` event (what was asked of the device, with the
 * arguments the block passed) and the `VsgStatus` the device answered with,
 * which the model takes as an input.
 */
module VsgApi {

  /** The bit pattern of a C `double`. The block stores frequency, level and
      sample rate and forwards them without ever computing on them. */
  type Float64 = bv64

  /** One `std::complex<float>` I/Q sample, as the bit patterns of its parts. */
  datatype Complex = Complex(re: bv32, im: bv32)

  /** The status codes of the vendor interface (`VsgStatus`). */
  datatype VsgStatus =
    | FileIOErr
    | MemErr
    | InvalidOperationErr
    | WaveformAlreadyActiveErr
    | WaveformNotActiveErr
    | UsbXferErr
    | InvalidParameterErr
    | NullPtrErr
    | InvalidDeviceErr
    | DeviceNotFoundErr
    | NoError
    | AlreadyFlushed
    | SettingClamped

  /** The integer value of each enumerator. */
  function Code(status: VsgStatus): int
  {
    match status
    case FileIOErr => -1000
    case MemErr => -999
    case InvalidOperationErr => -11
    case WaveformAlreadyActiveErr => -10
    case WaveformNotActiveErr => -9
    case UsbXferErr => -5
    case InvalidParameterErr => -4
    case NullPtrErr => -3
    case InvalidDeviceErr => -2
    case DeviceNotFoundErr => -1
    case NoError => 0
    case AlreadyFlushed => 1
    case SettingClamped => 2
  }

  /** The enumerators whose name marks them as errors. */
  predicate IsNamedError(status: VsgStatus)
  {
    || status.FileIOErr? || status.MemErr? || status.InvalidOperationErr?
    || status.WaveformAlreadyActiveErr? || status.WaveformNotActiveErr?
    || status.UsbXferErr? || status.InvalidParameterErr? || status.NullPtrErr?
    || status.InvalidDeviceErr? || status.DeviceNotFoundErr?
  }

  /** Distinct enumerators have distinct codes, and the sign of a code tells
      errors, success and warnings apart. */
  lemma CodeSigns(status: VsgStatus)
    ensures Code(status) < 0 <==> IsNamedError(status)
    ensures Code(status) == 0 <==> status == NoError
    ensures Code(status) > 0 <==> status == AlreadyFlushed || status == SettingClamped
    ensures forall other :: Code(other) == Code(status) ==> other == status
  {
  }

  /** One call the block makes into the vendor library. */
  datatype DeviceOp =
    | OpenDevice
    | GetSerialNumber
    | SetFrequency(frequency: Float64)
    | SetLevel(level: Float64)
    | SetSampleRate(sampleRate: Float64)
      /** Play `len` samples of `iq` once. */
    | OutputWaveform(iq: seq<Complex>, len: int)
      /** Play `len` samples of `iq` in a loop until aborted. */
    | RepeatWaveform(iq: seq<Complex>, len: int)
    | Abort
    | CloseDevice
}
