/** Python truthiness and the `or` operator, as the email sender uses them to
    let a per-call argument fall back to an instance default. In Python
    `a or b` is `a` when `bool(a)` holds and `b` otherwise, so None, the empty
    string, the empty list and the empty dict all count as "missing". */
module Py {

  datatype Option<+T> = None | Some(value: T)

  /** `bool(s)` for an optional string: None and "" are falsy. */
  predicate StrTruthy(s: Option<string>) {
    s.Some? && s.value != ""
  }

  /** `a or b` on optional strings. */
  function StrOr(a: Option<string>, b: Option<string>): (r: Option<string>)
    ensures StrTruthy(a) ==> r == a
    ensures !StrTruthy(a) ==> r == b
    ensures StrTruthy(r) <==> StrTruthy(a) || StrTruthy(b)
    ensures r.None? <==> !StrTruthy(a) && b.None?
  {
    if StrTruthy(a) then a else b
  }

  /** A recipient argument: `Union[List[str], str, None]`. */
  datatype Recipients = NoRecipients | Address(address: string) | AddressList(addresses: seq<string>) {
    /** `bool(self)`: None, "" and [] are falsy. */
    predicate Truthy() {
      match this
      case NoRecipients => false
      case Address(a) => a != ""
      case AddressList(xs) => xs != []
    }
  }

  /** `a or b` on recipient arguments. */
  function RecipientsOr(a: Recipients, b: Recipients): (r: Recipients)
    ensures a.Truthy() ==> r == a
    ensures !a.Truthy() ==> r == b
    ensures r.Truthy() <==> a.Truthy() || b.Truthy()
  {
    if a.Truthy() then a else b
  }

  /** `bool(d)` for an optional dict: None and {} are falsy. */
  predicate DictTruthy<K, V>(d: Option<map<K, V>>) {
    d.Some? && d.value != map[]
  }
}
