/** Values shared by every component: bytes, snapshots, and the failure-carrying wrappers
    that stand for the source's exceptions and `null` results. */
module Base {

  /** An 8-bit value (a serial byte or one byte of an ArrayBuffer). */
  type byte = x: int | 0 <= x < 256

  /** A serialized full-machine snapshot (the ArrayBuffer handed between engine and store). */
  type Bytes = seq<byte>

  /** The failures the core can raise. */
  datatype Error =
    | EngineUnavailable   // `window.V86` is not loaded
    | StartFailed         // the engine constructor threw
    | NotRunning          // "Emulator not running"
    | SnapshotFailed      // the engine's save_state rejected
    | RestoreFailed       // the engine's restore_state rejected
    | StorageUnavailable  // navigator.storage.getDirectory() rejected
    | NotInitialized      // "OPFSManager not initialized. Call init() first."
    | TypeMismatch        // a handle of the wrong kind is in the way
    | WriteFailed         // the writable stream's write rejected
    | InvalidName         // a handle was asked for under a name that is not a valid file name

  datatype Option<+T> = None | Some(value: T)

  datatype Result<+T> = Success(value: T) | Failure(error: Error)

  /** A result without a value: a promise of `void`. */
  datatype Outcome = Pass | Fail(error: Error)
}
