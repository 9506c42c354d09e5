/** The appointment store: its state, the actions dispatched into it, and the
    pure reducer that is its only way to change. */
module Store {
  import opened JsValues
  import opened Records

  /** The store's state. `appointments` keeps the order in which records were
      fetched or appended; `error` holds the last failure message, if any. */
  datatype State = State(appointments: seq<Appointment>, loading: bool, error: Option<string>)

  /** The state the store starts in. */
  const Initial := State([], false, None)

  /** The store starts idle: no appointments, not loading, no error; and an
      empty store has no record for any id. */
  lemma InitialIsIdle()
    ensures Initial.appointments == [] && !Initial.loading && Initial.error.None?
    ensures forall key :: NoneWithId(Initial.appointments, key)
  {
  }

  /** The actions the reducer recognises, and `Unrecognized` for an action
      whose `type` string is none of theirs. */
  datatype Action =
    | FetchStart
    | FetchSuccess(list: seq<Appointment>)
    | FetchError(message: string)
    | Add(record: Appointment)
    | Delete(key: Option<Id>)
    | Update(record: Appointment)
    | Unrecognized(kind: string)

  /** `xs.filter(app => app.id !== key)`: the records whose id is not `key`.
      It never grows the list, keeps exactly the survivors with their
      multiplicities, and changes nothing when no id matches. */
  function Without(xs: seq<Appointment>, key: Option<Id>): (r: seq<Appointment>)
    ensures |r| <= |xs|
    ensures forall x :: x in r <==> x in xs && x.id != key
    ensures forall x :: multiset(r)[x] == if x.id == key then 0 else multiset(xs)[x]
    ensures NoneWithId(xs, key) ==> r == xs
  {
    if xs == [] then []
    else
      assert xs == [xs[0]] + xs[1..];
      if xs[0].id == key then Without(xs[1..], key) else [xs[0]] + Without(xs[1..], key)
  }

  /** `xs.map(app => app.id === p.id ? p : app)`: every record whose id matches
      becomes `p`, every other record stays where it was. */
  function Replace(xs: seq<Appointment>, p: Appointment): (r: seq<Appointment>)
    ensures |r| == |xs|
    ensures forall i :: 0 <= i < |xs| && xs[i].id == p.id ==> r[i] == p
    ensures forall i :: 0 <= i < |xs| && xs[i].id != p.id ==> r[i] == xs[i]
  {
    if xs == [] then []
    else [if xs[0].id == p.id then p else xs[0]] + Replace(xs[1..], p)
  }

  /** The reducer: the state after one dispatched action. Only the three
      fetch actions touch `loading`, only FETCH_APPOINTMENTS_ERROR touches
      `error`, and FETCH_APPOINTMENTS_START, _ERROR and unknown actions keep
      the list. */
  function Reduce(s: State, a: Action): (r: State)
    ensures !(a.FetchStart? || a.FetchSuccess? || a.FetchError?) ==> r.loading == s.loading
    ensures a.FetchStart? ==> r.loading
    ensures a.FetchSuccess? || a.FetchError? ==> !r.loading
    ensures !a.FetchError? ==> r.error == s.error
    ensures a.FetchStart? || a.FetchError? || a.Unrecognized? ==> r.appointments == s.appointments
  {
    match a
    case FetchStart => s.(loading := true)
    case FetchSuccess(list) => s.(loading := false, appointments := list)
    case FetchError(message) => s.(loading := false, error := Some(message))
    case Add(p) => s.(appointments := s.appointments + [p])
    case Delete(key) => s.(appointments := Without(s.appointments, key))
    case Update(p) => s.(appointments := Replace(s.appointments, p))
    case Unrecognized(_) => s
  }

  /** The state after dispatching `actions` one after another. A batch with no
      FETCH_APPOINTMENTS_ERROR leaves `error` as it was; a batch with no fetch
      action at all leaves `loading` as it was. */
  function ApplyAll(s: State, actions: seq<Action>): (r: State)
    ensures (forall i :: 0 <= i < |actions| ==> !actions[i].FetchError?) ==> r.error == s.error
    ensures (forall i :: 0 <= i < |actions| ==> !(actions[i].FetchStart? || actions[i].FetchSuccess? || actions[i].FetchError?))
      ==> r.loading == s.loading
    decreases |actions|
  {
    if actions == [] then s else ApplyAll(Reduce(s, actions[0]), actions[1..])
  }

  /** `r` is `xs` with some elements left out, the rest in their original order. */
  predicate IsSubsequence(r: seq<Appointment>, xs: seq<Appointment>)
    decreases |xs|
  {
    if r == [] then true
    else if xs == [] then false
    else (r[0] == xs[0] && IsSubsequence(r[1..], xs[1..])) || IsSubsequence(r, xs[1..])
  }

  /** FETCH_APPOINTMENTS_START raises `loading` and touches nothing else. */
  lemma FetchStartSetsLoading(s: State)
    ensures Reduce(s, FetchStart).loading
    ensures Reduce(s, FetchStart).appointments == s.appointments
    ensures Reduce(s, FetchStart).error == s.error
  {
  }

  /** FETCH_APPOINTMENTS_SUCCESS replaces the list wholesale and lowers
      `loading`; an earlier error stays recorded. */
  lemma FetchSuccessReplacesList(s: State, list: seq<Appointment>)
    ensures Reduce(s, FetchSuccess(list)).appointments == list
    ensures !Reduce(s, FetchSuccess(list)).loading
    ensures Reduce(s, FetchSuccess(list)).error == s.error
  {
  }

  /** FETCH_APPOINTMENTS_ERROR lowers `loading` and records the message; the
      list is untouched. */
  lemma FetchErrorRecordsMessage(s: State, message: string)
    ensures Reduce(s, FetchError(message)).error == Some(message)
    ensures !Reduce(s, FetchError(message)).loading
    ensures Reduce(s, FetchError(message)).appointments == s.appointments
  {
  }

  /** ADD_APPOINTMENT appends: one longer, the old list a prefix, the payload last. */
  lemma AddAppends(s: State, p: Appointment)
    ensures var r := Reduce(s, Add(p));
      && |r.appointments| == |s.appointments| + 1
      && s.appointments <= r.appointments
      && r.appointments[|s.appointments|] == p
      && r.loading == s.loading && r.error == s.error
  {
  }

  /** DELETE_APPOINTMENT keeps exactly the records whose id differs from the
      payload, in their original relative order, never grows the list, and is a
      no-op when nothing matches. */
  lemma DeleteRemovesMatches(s: State, key: Option<Id>)
    ensures var r := Reduce(s, Delete(key));
      && |r.appointments| <= |s.appointments|
      && (forall x :: x in r.appointments <==> x in s.appointments && x.id != key)
      && IsSubsequence(r.appointments, s.appointments)
      && (NoneWithId(s.appointments, key) ==> r == s)
      && r.loading == s.loading && r.error == s.error
  {
    WithoutIsSubsequence(s.appointments, key);
  }

  /** UPDATE_APPOINTMENT keeps the length; matching records become the payload,
      the others stay at their index; nothing matches, nothing changes. */
  lemma UpdateReplacesMatches(s: State, p: Appointment)
    ensures var r := Reduce(s, Update(p));
      && |r.appointments| == |s.appointments|
      && (forall i :: 0 <= i < |s.appointments| && s.appointments[i].id == p.id ==> r.appointments[i] == p)
      && (forall i :: 0 <= i < |s.appointments| && s.appointments[i].id != p.id ==> r.appointments[i] == s.appointments[i])
      && (NoneWithId(s.appointments, p.id) ==> r == s)
      && r.loading == s.loading && r.error == s.error
  {
    var r := Reduce(s, Update(p));
    if NoneWithId(s.appointments, p.id) {
      assert r.appointments == s.appointments;
    }
  }

  /** An unrecognised action returns the state as it was. */
  lemma UnrecognizedIsIdentity(s: State, kind: string)
    ensures Reduce(s, Unrecognized(kind)) == s
  {
  }

  /** Filtering distributes over concatenation: what survives of `xs + ys` is
      what survives of `xs` followed by what survives of `ys`. */
  lemma {:induction false} WithoutConcat(xs: seq<Appointment>, ys: seq<Appointment>, key: Option<Id>)
    ensures Without(xs + ys, key) == Without(xs, key) + Without(ys, key)
    decreases |xs|
  {
    if xs == [] {
      assert xs + ys == ys;
    } else {
      assert (xs + ys)[1..] == xs[1..] + ys;
      WithoutConcat(xs[1..], ys, key);
    }
  }

  /** The survivors of a delete are a subsequence of the list: they keep their
      original relative order. */
  lemma {:induction false} WithoutIsSubsequence(xs: seq<Appointment>, key: Option<Id>)
    ensures IsSubsequence(Without(xs, key), xs)
    decreases |xs|
  {
    if xs != [] {
      WithoutIsSubsequence(xs[1..], key);
      var rest := Without(xs[1..], key);
      if xs[0].id != key {
        assert ([xs[0]] + rest)[1..] == rest;
      } else if rest != [] {
        assert IsSubsequence(rest, xs[1..]);
      }
    }
  }

  /** Deleting twice by the same id is deleting once. */
  lemma DeleteIdempotent(s: State, key: Option<Id>)
    ensures Reduce(Reduce(s, Delete(key)), Delete(key)) == Reduce(s, Delete(key))
  {
    var r := Without(s.appointments, key);
    assert NoneWithId(r, key) by {
      forall i | 0 <= i < |r| ensures r[i].id != key {
        assert r[i] in r;
      }
    }
  }

  /** Adding a record whose id no stored record has, then deleting that id,
      gives back the state before the add. */
  lemma AddThenDeleteRestores(s: State, p: Appointment)
    requires NoneWithId(s.appointments, p.id)
    ensures Reduce(Reduce(s, Add(p)), Delete(p.id)) == s
  {
    WithoutConcat(s.appointments, [p], p.id);
    assert Without([p], p.id) == [];
  }

  /** An update never changes which id sits at which index. */
  lemma UpdateKeepsIds(s: State, p: Appointment)
    ensures var r := Reduce(s, Update(p));
      forall i :: 0 <= i < |s.appointments| ==> r.appointments[i].id == s.appointments[i].id
  {
  }

  /** Applying the same update twice is applying it once. */
  lemma UpdateIdempotent(s: State, p: Appointment)
    ensures Reduce(Reduce(s, Update(p)), Update(p)) == Reduce(s, Update(p))
  {
    var r := Replace(s.appointments, p);
    var r2 := Replace(r, p);
    assert r2 == r by {
      forall i | 0 <= i < |r| ensures r2[i] == r[i] {
      }
    }
  }

  /** Dispatching a single action is one reducer step. */
  lemma ApplyAllSingle(s: State, a: Action)
    ensures ApplyAll(s, [a]) == Reduce(s, a)
  {
    assert ApplyAll(s, [a]) == ApplyAll(Reduce(s, a), []);
  }

  /** Dispatching two batches one after the other is dispatching their concatenation. */
  lemma {:induction false} ApplyAllConcat(s: State, xs: seq<Action>, ys: seq<Action>)
    ensures ApplyAll(s, xs + ys) == ApplyAll(ApplyAll(s, xs), ys)
    decreases |xs|
  {
    if xs == [] {
      assert xs + ys == ys;
    } else {
      assert (xs + ys)[1..] == xs[1..] + ys;
      ApplyAllConcat(Reduce(s, xs[0]), xs[1..], ys);
    }
  }

  /** Order is kept: a fetched list followed by an add is the fetched list
      with the added record at the end, whatever was stored before. */
  lemma FetchThenAddKeepsOrder(s: State, list: seq<Appointment>, d: Appointment)
    ensures ApplyAll(s, [FetchSuccess(list), Add(d)]).appointments == list + [d]
  {
    var s1 := Reduce(s, FetchSuccess(list));
    assert [FetchSuccess(list), Add(d)][1..] == [Add(d)];
    assert ApplyAll(s1, [Add(d)]) == ApplyAll(Reduce(s1, Add(d)), []);
  }
}
