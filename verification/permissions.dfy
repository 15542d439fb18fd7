/**
 * The write-permission check of analizer.py (`is_world_writable`), applied to
 * the POSIX `st_mode` word of a file. Reading the mode from the filesystem is
 * not modelled; the mode is an input.
 */
module Permissions {

  /** The `st_mode` word; the kernel's `mode_t` is 32 bits wide. */
  type Mode = bv32

  /** The permission bits for write access by the owner, the group and others. */
  const OwnerWrite: Mode := 0x80  // 0o200
  const GroupWrite: Mode := 0x10  // 0o020
  const OtherWrite: Mode := 0x02  // 0o002

  /** The mask `is_world_writable` tests, octal 0o222: all three write bits, the owner's included. */
  const WriteMask: Mode := 0x92

  /**
   * The check holds exactly when the owner, the group or others may write;
   * despite its name it does not ignore the owner's bit.
   */
  predicate IsWorldWritable(mode: Mode): (r: bool)
    ensures r <==> mode & OwnerWrite != 0 || mode & GroupWrite != 0 || mode & OtherWrite != 0
  {
    mode & WriteMask != 0
  }

  /** Only the three write bits matter: the file type and the other permission bits do not. */
  lemma OnlyWriteBitsMatter(mode: Mode, other: Mode)
    requires mode & WriteMask == other & WriteMask
    ensures IsWorldWritable(mode) == IsWorldWritable(other)
  {
  }

  /** A regular file readable and writable by its owner alone (0o100600) is flagged. */
  lemma OwnerOnlyFileIsFlagged()
    ensures IsWorldWritable(0x8180)
  {
  }

  /** A regular file readable by everyone and writable by nobody (0o100444) is not flagged. */
  lemma ReadOnlyFileIsNotFlagged()
    ensures !IsWorldWritable(0x8124)
  {
  }
}
