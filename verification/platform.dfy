/**
 * The platform collaborators of the search command, reduced to the answers
 * they give: GRUB's error codes, and one record per enumerated device that
 * says what opening it, probing its filesystem, reading its label or UUID,
 * allocating the path buffer and opening a file on it yield during the visit.
 */
module Platform {
  import opened Wrappers

  /** The values `grub_errno` takes in this model. */
  datatype ErrCode =
    | ErrNone              // GRUB_ERR_NONE
    | ErrOutOfMemory       // GRUB_ERR_OUT_OF_MEMORY, raised by the allocator
    | ErrFileNotFound      // GRUB_ERR_FILE_NOT_FOUND
    | ErrInvalidCommand    // GRUB_ERR_INVALID_COMMAND
    | ErrPlatform(code: nat) // any other code a collaborator may leave behind

  /**
   * One call of a filesystem's label or UUID accessor: the value of
   * `grub_errno` when it returns and the string it stored through its
   * out-pointer (None for a null pointer).
   */
  datatype AccessorCall = AccessorCall(errno: ErrCode, quid: Option<string>)

  /**
   * A filesystem recognised by the probe. Each accessor is None when the
   * filesystem driver leaves that function pointer null.
   */
  datatype FsInfo = FsInfo(readLabel: Option<AccessorCall>, readUuid: Option<AccessorCall>)

  /**
   * One device handed to the search by the enumerator, together with what
   * the collaborators answer while it is visited:
   * - name: the identifier the enumerator passes to the callback;
   * - opens: whether the device can be opened;
   * - fs: the filesystem the probe recognises on the opened device, if any;
   * - allocFails: whether the allocator refuses the path buffer at this visit;
   * - openable: the full paths that open as a file at this visit.
   */
  datatype Device = Device(
    name: string,
    opens: bool,
    fs: Option<FsInfo>,
    allocFails: bool,
    openable: set<string>)
}
