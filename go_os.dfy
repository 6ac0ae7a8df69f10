/**
 What the directory walk hands to its callback besides the path: the entry's
 `os.FileInfo`, of which only the `FileMode` bits are consulted, and the
 traversal error, which Go passes as a nil-able `error`.
 */
module GoOs {

  /** A traversal error; only its identity matters to the engine. */
  datatype Error = Error(message: string)

  /** Go's nil-able values: `None` is nil. */
  datatype Option<T> = None | Some(value: T)

  /** os.ModeDir, the directory bit of a FileMode. */
  const ModeDir: bv32 := 0x8000_0000

  /** The permission bits 0111: execute for owner, group and others. */
  const ExecuteBits: bv32 := 0x49

  /** The part of os.FileInfo that is read: its FileMode. */
  datatype FileInfo = FileInfo(mode: bv32)
  {
    /** FileMode.IsDir(). */
    predicate IsDir()
    {
      mode & ModeDir != 0
    }
  }

  /**
   The executable test both variants apply: not a directory, and at least one
   of the three execute bits set.
   */
  predicate IsExecutable(info: FileInfo)
  {
    !info.IsDir() && info.mode & ExecuteBits != 0
  }
}
