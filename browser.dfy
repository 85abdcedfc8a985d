/** Browser facilities the screen hands values through without looking
    inside them. */
module Browser {
  /** A file chosen in the browser's file picker (opaque). */
  datatype FileRef = FileRef(handle: nat)

  /** A preview URL handed out by `URL.createObjectURL` (opaque). */
  datatype ObjectUrl = ObjectUrl(handle: nat)
}
