/**
 * Values shared by the whole model: an optional value (a request field that
 * may be absent) and the two brand names the repository prints.
 */
module Base {

  datatype Option<T> = None | Some(value: T)

  /**
   * The server and the client print KVANTUM; the Express routers under
   * routes/ and the admin client print QUANTUM.
   */
  datatype Brand = Kvantum | Quantum

  function BrandName(b: Brand): string {
    match b
    case Kvantum => "KVANTUM"
    case Quantum => "QUANTUM"
  }

  /** `value || ''` for an optional string field of a request. */
  function OrEmpty(value: Option<string>): string {
    if value.Some? then value.value else ""
  }
}
