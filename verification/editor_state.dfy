/**
 * The editor's state snapshot, as mirrored on the native side. The fields of
 * the snapshot are opaque here except for the focus flag, which `focus` sets.
 */
module EditorState {
  /** The value of one field of the snapshot. */
  datatype Value = Bool(b: bool) | Other(token: nat)

  /** A snapshot: named fields to values. */
  type State = map<string, Value>

  /** The snapshot held before the first update: the empty record `{}`. */
  const Empty: State := map[]

  const IsFocused: string := "isFocused"

  /** The spread `{...s, isFocused: true}`: every field of `s` kept, the focus flag set. */
  function WithFocused(s: State): (r: State)
    ensures r.Keys == s.Keys + {IsFocused}
    ensures r[IsFocused] == Bool(true)
    ensures forall k :: k in s && k != IsFocused ==> r[k] == s[k]
  {
    s[IsFocused := Bool(true)]
  }
}
