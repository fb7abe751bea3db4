/** What the merchant form pages share: an error map keyed by field, and the way
    `handleInputChange` blanks a field's message when the user edits that field. */
module Forms {
  /** A field whose message is a non-empty string is shown in red under the input. */
  predicate Shows<K>(errors: map<K, string>, k: K) {
    k in errors && errors[k] != ""
  }

  /** The error half of `handleInputChange`: if the edited field shows a message, that
      message becomes ""; no key is added or removed and every other message stays. */
  function ClearError<K>(errors: map<K, string>, name: K): (e: map<K, string>)
    ensures e.Keys == errors.Keys
    ensures forall k :: k in e && k != name ==> e[k] == errors[k]
    ensures name in e ==> e[name] == ""
    ensures !Shows(e, name)
  {
    if name in errors && errors[name] != "" then errors[name := ""] else errors
  }

  /** Clearing twice is clearing once. */
  lemma ClearErrorIdempotent<K>(errors: map<K, string>, name: K)
    ensures ClearError(ClearError(errors, name), name) == ClearError(errors, name)
  {
  }
}
