/** A conversation-state store: at most one state per phone number, set
    wholesale, read back, or deleted.  The bot keeps two stores of this kind,
    one per flow engine. */
module ConversationState {
  import opened Optional

  type Store<S> = map<string, S>

  /** `getConversationState` */
  function GetState<S>(store: Store<S>, phone: string): Option<S> {
    if phone in store then Some(store[phone]) else None
  }

  /** `setConversationState`: the new state replaces the old one whole, and
      no other number's state changes. */
  function SetState<S>(store: Store<S>, phone: string, s: S): (r: Store<S>)
    ensures GetState(r, phone) == Some(s)
    ensures forall p :: p != phone ==> GetState(r, p) == GetState(store, p)
    ensures r.Keys == store.Keys + {phone}
  {
    store[phone := s]
  }

  /** `clearConversationState`: the number has no state afterwards, and no
      other number's state changes. */
  function ClearState<S>(store: Store<S>, phone: string): (r: Store<S>)
    ensures GetState(r, phone).None?
    ensures forall p :: p != phone ==> GetState(r, p) == GetState(store, p)
    ensures r.Keys == store.Keys - {phone}
  {
    store - {phone}
  }

  /** Setting twice keeps only the second state: states are never merged. */
  lemma {:induction false} SetReplaces<S>(store: Store<S>, phone: string, a: S, b: S)
    ensures SetState(SetState(store, phone, a), phone, b) == SetState(store, phone, b)
  {
  }

  /** Clearing a number that has no state changes nothing, so clearing twice
      is the same as clearing once. */
  lemma {:induction false} ClearIdempotent<S>(store: Store<S>, phone: string)
    ensures GetState(store, phone).None? ==> ClearState(store, phone) == store
    ensures ClearState(ClearState(store, phone), phone) == ClearState(store, phone)
  {
  }

  /** Operations on different numbers commute. */
  lemma {:induction false} DifferentNumbersCommute<S>(store: Store<S>, p: string, q: string, a: S, b: S)
    requires p != q
    ensures SetState(SetState(store, p, a), q, b) == SetState(SetState(store, q, b), p, a)
    ensures ClearState(SetState(store, p, a), q) == SetState(ClearState(store, q), p, a)
  {
  }
}
