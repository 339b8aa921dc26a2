/** The part of the OCCI category model the client consults: kinds (with the
    location their instances live under), mixins and actions, and the two
    lookups the client performs on them — by term, which may be ambiguous, and
    by full identifier (scheme followed by term), which is not. */
module Categories {
  import opened Wrappers
  import opened Uris

  /** How the parser reads a collection of instances of a kind. */
  datatype CollectionType = ResourceCollection | LinkCollection

  datatype Kind = Kind(scheme: string, term: string, location: Uri, collectionType: Option<CollectionType>)
  datatype Mixin = Mixin(scheme: string, term: string, location: Uri)
  datatype Action = Action(scheme: string, term: string)

  datatype Model = Model(kinds: seq<Kind>, mixins: seq<Mixin>, actions: seq<Action>)

  /** The outcome of a lookup by term. */
  datatype Lookup<T> = Found(value: T) | NotFound | Ambiguous

  function KindId(k: Kind): string { k.scheme + k.term }
  function MixinId(m: Mixin): string { m.scheme + m.term }
  function ActionId(a: Action): string { a.scheme + a.term }
  function KindTerm(k: Kind): string { k.term }
  function ActionTerm(a: Action): string { a.term }

  /** Index `i` holds the only element of `xs` whose term is `t`. */
  predicate OnlyMatch<T>(xs: seq<T>, termOf: T -> string, t: string, i: int) {
    0 <= i < |xs| && termOf(xs[i]) == t &&
    forall j :: 0 <= j < |xs| && j != i ==> termOf(xs[j]) != t
  }

  /** Two distinct elements of `xs` carry the term `t`. */
  predicate TwoMatches<T>(xs: seq<T>, termOf: T -> string, t: string) {
    exists i, j :: 0 <= i < j < |xs| && termOf(xs[i]) == t && termOf(xs[j]) == t
  }

  /** Lookup by term: the single element with that term, nothing, or an
      ambiguity when several share it. */
  function FindByTerm<T>(xs: seq<T>, termOf: T -> string, t: string): (r: Lookup<T>)
    ensures r.Found? ==> r.value in xs && termOf(r.value) == t
  {
    if xs == [] then NotFound
    else
      var rest := FindByTerm(xs[1..], termOf, t);
      if termOf(xs[0]) != t then rest
      else if rest.NotFound? then Found(xs[0])
      else Ambiguous
  }

  /** The three outcomes of a term lookup, each characterised by the matches. */
  lemma {:induction false} FindByTermSpec<T>(xs: seq<T>, termOf: T -> string, t: string)
    ensures FindByTerm(xs, termOf, t).NotFound? <==> forall i :: 0 <= i < |xs| ==> termOf(xs[i]) != t
    ensures FindByTerm(xs, termOf, t).Ambiguous? <==> TwoMatches(xs, termOf, t)
    ensures forall i :: OnlyMatch(xs, termOf, t, i) ==> FindByTerm(xs, termOf, t) == Found(xs[i])
    ensures FindByTerm(xs, termOf, t).Found? ==> exists i :: OnlyMatch(xs, termOf, t, i)
  {
    if xs != [] {
      var tail := xs[1..];
      FindByTermSpec(tail, termOf, t);
      var rest := FindByTerm(tail, termOf, t);
      // Two matches in the whole list: both in the tail, or the head and one in the tail.
      if TwoMatches(xs, termOf, t) {
        var i, j :| 0 <= i < j < |xs| && termOf(xs[i]) == t && termOf(xs[j]) == t;
        assert tail[j - 1] == xs[j];
        if i > 0 {
          assert tail[i - 1] == xs[i];
          assert TwoMatches(tail, termOf, t);
        }
      }
      if TwoMatches(tail, termOf, t) {
        var i, j :| 0 <= i < j < |tail| && termOf(tail[i]) == t && termOf(tail[j]) == t;
        assert xs[i + 1] == tail[i] && xs[j + 1] == tail[j];
      }
      if termOf(xs[0]) == t && !rest.NotFound? {
        var k :| 0 <= k < |tail| && termOf(tail[k]) == t;
        assert xs[k + 1] == tail[k];
        assert TwoMatches(xs, termOf, t);
      }
      forall i | 0 <= i < |tail| && termOf(tail[i]) == t
        ensures termOf(xs[i + 1]) == t
      {
        assert xs[i + 1] == tail[i];
      }
      if rest.Found? {
        var k :| OnlyMatch(tail, termOf, t, k);
        if termOf(xs[0]) != t {
          assert OnlyMatch(xs, termOf, t, k + 1) by {
            forall j | 0 <= j < |xs| && j != k + 1
              ensures termOf(xs[j]) != t
            {
              if j > 0 { assert xs[j] == tail[j - 1]; }
            }
          }
        }
      }
      if termOf(xs[0]) == t && rest.NotFound? {
        assert OnlyMatch(xs, termOf, t, 0) by {
          forall j | 0 < j < |xs|
            ensures termOf(xs[j]) != t
          {
            assert xs[j] == tail[j - 1];
          }
        }
      }
      forall i | OnlyMatch(xs, termOf, t, i)
        ensures FindByTerm(xs, termOf, t) == Found(xs[i])
      {
        if i > 0 {
          assert OnlyMatch(tail, termOf, t, i - 1) by {
            forall j | 0 <= j < |tail| && j != i - 1
              ensures termOf(tail[j]) != t
            {
              assert tail[j] == xs[j + 1];
            }
          }
        } else {
          forall j | 0 <= j < |tail|
            ensures termOf(tail[j]) != t
          {
            assert tail[j] == xs[j + 1];
          }
        }
      }
    }
  }

  /** Lookup by identifier: the first element whose identifier is `id`. */
  function FindById<T>(xs: seq<T>, idOf: T -> string, id: string): (r: Option<T>)
    ensures r.None? <==> forall i :: 0 <= i < |xs| ==> idOf(xs[i]) != id
    ensures r.Some? ==> exists i :: 0 <= i < |xs| && xs[i] == r.value && idOf(xs[i]) == id &&
                                    forall j :: 0 <= j < i ==> idOf(xs[j]) != id
  {
    if xs == [] then None
    else if idOf(xs[0]) == id then Some(xs[0])
    else
      var r := FindById(xs[1..], idOf, id);
      assert forall i :: 0 < i < |xs| ==> xs[i] == xs[1..][i - 1];
      r
  }

  /** `findKind(String)`. */
  function FindKind(m: Model, term: string): Lookup<Kind> {
    FindByTerm(m.kinds, KindTerm, term)
  }

  /** `findKind(URI)`. */
  function FindKindById(m: Model, id: string): Option<Kind> {
    FindById(m.kinds, KindId, id)
  }

  /** `findMixin(URI)`. */
  function FindMixinById(m: Model, id: string): Option<Mixin> {
    FindById(m.mixins, MixinId, id)
  }

  /** `findAction(String)`. */
  function FindAction(m: Model, term: string): Lookup<Action> {
    FindByTerm(m.actions, ActionTerm, term)
  }

  /** `findAction(URI)`. */
  function FindActionById(m: Model, id: string): Option<Action> {
    FindById(m.actions, ActionId, id)
  }

  /** `findKindType(kind)`. */
  function KindType(k: Kind): Option<CollectionType> {
    k.collectionType
  }

  /** No two kinds of the model share an identifier. */
  predicate UniqueKindIds(m: Model) {
    forall i, j :: 0 <= i < j < |m.kinds| ==> KindId(m.kinds[i]) != KindId(m.kinds[j])
  }

  /** Every kind of a model with unique identifiers is found again by its own
      identifier. */
  lemma FindKindByOwnId(m: Model, i: nat)
    requires UniqueKindIds(m) && i < |m.kinds|
    ensures FindKindById(m, KindId(m.kinds[i])) == Some(m.kinds[i])
  {
    var r := FindKindById(m, KindId(m.kinds[i]));
    var k :| 0 <= k < |m.kinds| && m.kinds[k] == r.value && KindId(m.kinds[k]) == KindId(m.kinds[i]) &&
             forall j :: 0 <= j < k ==> KindId(m.kinds[j]) != KindId(m.kinds[i]);
    assert k == i;
  }
}
