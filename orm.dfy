/**
 * The persistence layer as an in-memory store: each table is a map from identifier to row.
 * `save` inserts, `update` replaces by identifier, `load` fails with ENTITY_NOT_FOUND.
 * Queries ordered by identifier use the character-code order of the identifiers.
 */
module Orm {
  import opened Wrappers
  import opened Warnings
  import opened Validation
  import Keys

  /** Why a store operation failed: a domain validation or an insert over an existing key. */
  datatype Failure = Invalid(cause: ValidationException) | DuplicateKey(id: string)

  /** `ValidationException.of(ENTITY_NOT_FOUND, id)` for a load by identifier. */
  function NotFound(id: string): (f: Failure)
    ensures f.Invalid? && f.cause.Message() == Keys.EntityNotFound
    ensures f.cause.warns.errors == [OfGlobal(Keys.EntityNotFound, [id])]
  {
    Invalid(OfMessage(Keys.EntityNotFound, [id]))
  }

  /** `rep.get`: the row stored under `id`, if any. */
  function Get<T>(rows: map<string, T>, id: string): (r: Option<T>)
    ensures r.Some? <==> id in rows
    ensures r.Some? ==> r.value == rows[id]
  {
    if id in rows then Some(rows[id]) else None
  }

  /** `rep.load`: the row stored under `id`, or ENTITY_NOT_FOUND carrying the identifier. */
  function Load<T>(rows: map<string, T>, id: string): (r: Result<T, Failure>)
    ensures r.Success? <==> id in rows
    ensures r.Success? ==> r.value == rows[id]
    ensures r.Failure? ==> r.error == NotFound(id)
  {
    match Get(rows, id)
    case Some(row) => Success(row)
    case None => Failure(NotFound(id))
  }

  /** `rep.save`: inserts a new row; an identifier already stored is a duplicate-key failure. */
  function Insert<T>(rows: map<string, T>, id: string, row: T): (r: Result<map<string, T>, Failure>)
    ensures r.Success? <==> id !in rows
    ensures r.Failure? ==> r.error == DuplicateKey(id)
    ensures r.Success? ==> r.value.Keys == rows.Keys + {id} && r.value[id] == row
    ensures r.Success? ==> forall k :: k in rows ==> r.value[k] == rows[k]
  {
    if id in rows then Failure(DuplicateKey(id)) else Success(rows[id := row])
  }

  /** Lexicographic order by character code; a proper prefix comes first. */
  predicate Less(a: string, b: string)
    decreases |a|
  {
    if a == [] then b != []
    else b != [] && (a[0] < b[0] || (a[0] == b[0] && Less(a[1..], b[1..])))
  }

  lemma {:induction false} LessIrreflexive(a: string)
    ensures !Less(a, a)
    decreases |a|
  {
    if a != [] {
      LessIrreflexive(a[1..]);
    }
  }

  lemma {:induction false} LessTransitive(a: string, b: string, c: string)
    requires Less(a, b) && Less(b, c)
    ensures Less(a, c)
    decreases |a|
  {
    if a != [] && a[0] == b[0] && b[0] == c[0] {
      LessTransitive(a[1..], b[1..], c[1..]);
    }
  }

  lemma {:induction false} LessTotal(a: string, b: string)
    ensures a == b || Less(a, b) || Less(b, a)
    decreases |a|
  {
    if a != [] && b != [] && a[0] == b[0] {
      LessTotal(a[1..], b[1..]);
      if a[1..] == b[1..] {
        assert a == [a[0]] + a[1..] && b == [b[0]] + b[1..];
      }
    }
  }

  predicate Ascending(s: seq<string>) {
    forall i, j :: 0 <= i < j < |s| ==> Less(s[i], s[j])
  }

  /** An ascending identifier list never repeats an identifier. */
  lemma AscendingDistinct(s: seq<string>)
    requires Ascending(s)
    ensures forall i, j :: 0 <= i < j < |s| ==> s[i] != s[j]
  {
    forall i, j | 0 <= i < j < |s|
      ensures s[i] != s[j]
    {
      LessIrreflexive(s[i]);
    }
  }

  /** `m` is the least identifier of `ids`. */
  predicate IsLeast(m: string, ids: set<string>) {
    m in ids && forall y :: y in ids ==> y == m || Less(m, y)
  }

  /** Every non-empty set of identifiers has a least one. */
  lemma {:induction false} LeastExists(ids: set<string>)
    requires ids != {}
    ensures exists m :: IsLeast(m, ids)
    decreases |ids|
  {
    var x :| x in ids;
    if ids == {x} {
      assert IsLeast(x, ids);
    } else {
      var rest := ids - {x};
      LeastExists(rest);
      var m :| IsLeast(m, rest);
      LeastOfAdded(m, rest, x);
      assert ids == rest + {x};
    }
  }

  /** Adding `x` to a set with least element `m` leaves the lesser of the two least. */
  lemma LeastOfAdded(m: string, rest: set<string>, x: string)
    requires IsLeast(m, rest) && x !in rest
    ensures IsLeast(if Less(m, x) then m else x, rest + {x})
  {
    LessTotal(m, x);
    if !Less(m, x) {
      forall y | y in rest + {x}
        ensures y == x || Less(x, y)
      {
        if y != x && y != m {
          LessTransitive(x, m, y);
        }
      }
    }
  }

  /** `ORDER BY id`: the identifiers of `ids`, each once, in ascending order. */
  method SortedIds(ids: set<string>) returns (s: seq<string>)
    ensures Ascending(s)
    ensures forall x :: x in s <==> x in ids
    ensures |s| == |ids|
  {
    s := [];
    var rest := ids;
    while rest != {}
      invariant rest <= ids
      invariant Ascending(s)
      invariant forall x :: x in s <==> x in ids && x !in rest
      invariant forall i, y :: 0 <= i < |s| && y in rest ==> Less(s[i], y)
      invariant |s| + |rest| == |ids|
      decreases |rest|
    {
      LeastExists(rest);
      var m :| IsLeast(m, rest);
      s := s + [m];
      rest := rest - {m};
    }
  }
}
