/**
 * The per-user conversation state kept at users/<id>/state
 * (bot.py, set_user_state, get_user_state, clear_user_state).
 */
module StateStore {
  import opened Json

  /** A Telegram user id. */
  type UserId = int

  /** Every user's state node, by user; a user without one is absent. */
  type States = map<UserId, Dict>

  /**
   * The store refuses a shallow merge of an empty mapping, so
   * set_user_state(u, {}) reaches its fallback and replaces the node by {}.
   * This is the one assumption the model makes about the store's library.
   */
  predicate UpdateRaises(partial: Dict)
  {
    partial == map[]
  }

  /** get_user_state: the node, or {} when there is none. */
  function GetUserState(states: States, u: UserId): (st: Dict)
    ensures u !in states ==> st == map[]
    ensures u in states ==> st == states[u]
  {
    if u in states then states[u] else map[]
  }

  /**
   * set_user_state: a shallow merge of partial into the user's state, or,
   * for an empty partial, the fallback that leaves {}; other users keep
   * their states.
   */
  function SetUserState(states: States, u: UserId, partial: Dict): (r: States)
    ensures forall v :: v != u ==> GetUserState(r, v) == GetUserState(states, v)
    ensures partial == map[] ==> GetUserState(r, u) == map[]
    ensures forall k :: k in partial ==> Get(GetUserState(r, u), k) == partial[k]
    ensures partial != map[] ==> forall k :: k !in partial ==> Get(GetUserState(r, u), k) == Get(GetUserState(states, u), k)
  {
    if UpdateRaises(partial) then states[u := partial]
    else states[u := GetUserState(states, u) + partial]
  }

  /** clear_user_state: the user's state reads as {}, and other users keep theirs. */
  function ClearUserState(states: States, u: UserId): (r: States)
    ensures GetUserState(r, u) == map[]
    ensures forall v :: v != u ==> GetUserState(r, v) == GetUserState(states, v)
  {
    states[u := map[]]
  }

  /**
   * A merge overwrites exactly the supplied keys, keeps every other key of
   * the user's state, and touches no other user.
   */
  lemma SetUserStateMerges(states: States, u: UserId, partial: Dict)
    requires !UpdateRaises(partial)
    ensures forall k :: k in partial ==> Get(GetUserState(SetUserState(states, u, partial), u), k) == partial[k]
    ensures forall k :: k !in partial ==>
              Get(GetUserState(SetUserState(states, u, partial), u), k) == Get(GetUserState(states, u), k)
    ensures GetUserState(SetUserState(states, u, partial), u).Keys == GetUserState(states, u).Keys + partial.Keys
    ensures forall v :: v != u ==> GetUserState(SetUserState(states, u, partial), v) == GetUserState(states, v)
  {
  }

  /** Setting {} empties the state (through the fallback). */
  lemma SetEmptyClears(states: States, u: UserId)
    ensures SetUserState(states, u, map[]) == ClearUserState(states, u)
    ensures GetUserState(SetUserState(states, u, map[]), u) == map[]
  {
  }

  /** A cleared state reads as {} and other users keep theirs. */
  lemma ClearLeavesEmpty(states: States, u: UserId)
    ensures GetUserState(ClearUserState(states, u), u) == map[]
    ensures forall v :: v != u ==> GetUserState(ClearUserState(states, u), v) == GetUserState(states, v)
  {
  }

  /** Merging the same mapping twice is the same as merging it once. */
  lemma SetUserStateIdempotent(states: States, u: UserId, partial: Dict)
    ensures SetUserState(SetUserState(states, u, partial), u, partial) == SetUserState(states, u, partial)
  {
    if !UpdateRaises(partial) {
      var once := GetUserState(states, u) + partial;
      assert once + partial == once;
    }
  }

  /** Merging a state read back from the store restores it. */
  lemma SetOwnStateIsNoOp(states: States, u: UserId)
    requires u in states && states[u] != map[]
    ensures SetUserState(states, u, GetUserState(states, u)) == states
  {
    assert states[u] + states[u] == states[u];
  }

  /** The state node of every user, updated in place. */
  class Store {
    var states: States

    constructor ()
      ensures states == map[]
    {
      states := map[];
    }

    method Get(u: UserId) returns (st: Dict)
      ensures st == GetUserState(states, u)
    {
      if u in states {
        st := states[u];
      } else {
        st := map[];
      }
    }

    method Set(u: UserId, partial: Dict)
      modifies this
      ensures states == SetUserState(old(states), u, partial)
    {
      if UpdateRaises(partial) {
        states := states[u := partial];
      } else {
        var current := if u in states then states[u] else map[];
        states := states[u := current + partial];
      }
    }

    method Clear(u: UserId)
      modifies this
      ensures states == ClearUserState(old(states), u)
    {
      states := states[u := map[]];
    }
  }
}
