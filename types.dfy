/** Values shared by every part of the front end: the backend's user profile,
    the opaque principal that keys the user directory, and the small
    option / result wrappers the hooks and forms pass around. */
module Types {

  /** An optional value; JavaScript's `undefined` is `None`. */
  datatype Option<+T> = None | Some(value: T)

  /** The outcome of a remote call or a parse: a value, or an error message. */
  datatype Result<+T> = Ok(value: T) | Err(message: string)

  /** The three roles the backend knows. */
  datatype Role = Santri | Ustadz | Admin

  /** An opaque caller identity, kept as the bytes of the principal. */
  datatype Principal = Principal(raw: seq<bv8>)

  /** The backend's user profile; `kelas` (class) is optional. */
  datatype Profile = Profile(name: string, idSantri: string, kelas: Option<string>, role: Role)

  /** One entry of the user directory: a principal paired with its profile. */
  datatype Entry = Entry(principal: Principal, profile: Profile)
}
