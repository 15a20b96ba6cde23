/** Value types shared by the model of the Zopfli compression scheme. */
module Types {

  /** One octet of a host or context buffer (BYTE / unsigned char). */
  newtype byte = b: int | 0 <= b < 0x100

  /** A buffer pointer that may be NULL. */
  datatype Option<+T> = None | Some(value: T)

  /**
   * The HRESULT values the batch path returns. The E_INVALIDARG of a
   * rejected call is the reply Session.Rejected.
   */
  datatype HResult = S_OK | S_FALSE | E_OUTOFMEMORY | E_FAIL
}
