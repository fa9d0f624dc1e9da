/** Ids in the order the client sends them: sorted as text. */
module Names {
  import opened Basics

  predicate Before(a: string, b: string) {
    && b != []
    && (a == [] || a[0] < b[0] || (a[0] == b[0] && Before(a[1..], b[1..])))
  }

  lemma {:induction false} BeforeIsTotal(a: string, b: string)
    ensures a == b || Before(a, b) || Before(b, a)
  {
    if a != [] && b != [] && a[0] == b[0] {
      BeforeIsTotal(a[1..], b[1..]);
      assert a == [a[0]] + a[1..] && b == [b[0]] + b[1..];
    }
  }

  lemma {:induction false} BeforeIsStrict(a: string, b: string)
    ensures !(Before(a, b) && Before(b, a))
    ensures !Before(a, a)
  {
    if a != [] {
      BeforeIsStrict(a[1..], if b == [] then [] else b[1..]);
    }
  }

  lemma {:induction false} BeforeIsTransitive(a: string, b: string, c: string)
    requires Before(a, b) && Before(b, c)
    ensures Before(a, c)
  {
    if a != [] && a[0] == b[0] == c[0] {
      BeforeIsTransitive(a[1..], b[1..], c[1..]);
    }
  }

  /** At the first place where they differ `a` has the smaller letter, or has ended. */
  predicate DiffersAt(a: string, b: string, at: nat) {
    at <= |a| && at < |b| && a[..at] == b[..at] && (at == |a| || a[at] < b[at])
  }

  /** The order is that of texts, letter by letter. */
  lemma {:induction false} BeforeIsByFirstDifference(a: string, b: string)
    ensures Before(a, b) <==> exists at: nat :: at < |b| && DiffersAt(a, b, at)
  {
    if b == [] {
    } else if a == [] || a[0] < b[0] {
      assert DiffersAt(a, b, 0);
    } else if a[0] == b[0] {
      BeforeIsByFirstDifference(a[1..], b[1..]);
      if Before(a, b) {
        var at: nat :| at < |b| - 1 && DiffersAt(a[1..], b[1..], at);
        assert a[..at + 1] == [a[0]] + a[1..][..at] && b[..at + 1] == [b[0]] + b[1..][..at];
        assert DiffersAt(a, b, at + 1);
      }
      if at: nat :| at < |b| && DiffersAt(a, b, at) {
        assert at > 0;
        assert a[1..][..at - 1] == a[..at][1..] && b[1..][..at - 1] == b[..at][1..];
        assert DiffersAt(a[1..], b[1..], at - 1);
      }
    } else {
      forall at: nat | at < |b| ensures !DiffersAt(a, b, at) {
        if 0 < at <= |a| {
          assert a[..at][0] != b[..at][0];
        }
      }
    }
  }

  predicate First(name: string, names: set<string>) {
    name in names && forall other <- names :: other == name || Before(name, other)
  }

  lemma FirstExists(names: set<string>)
    requires names != {}
    ensures exists name :: First(name, names)
  {
    var some :| some in names;
    if names == {some} {
      assert First(some, names);
    } else {
      var rest := names - {some};
      assert names == rest + {some};
      FirstExists(rest);
      var least :| First(least, rest);
      BeforeIsTotal(some, least);
      if Before(some, least) {
        forall other <- names
          ensures other == some || Before(some, other)
        {
          if other != some && other != least {
            BeforeIsTransitive(some, least, other);
          }
        }
        assert First(some, names);
      } else {
        assert First(least, names);
      }
    }
  }

  function FirstOf(names: set<string>): (name: string)
    requires names != {}
    ensures First(name, names)
  {
    FirstExists(names);
    assert forall a, b :: First(a, names) && First(b, names) ==> a == b by {
      forall a, b | First(a, names) && First(b, names)
        ensures a == b
      {
        BeforeIsStrict(a, b);
      }
    }
    var name :| First(name, names);
    name
  }

  predicate Ascending(list: seq<string>) {
    forall i, j :: 0 <= i < j < |list| ==> Before(list[i], list[j])
  }

  lemma Prepend(name: string, list: seq<string>)
    ensures Elements([name] + list) == {name} + Elements(list)
    ensures Ascending(list) && (forall other <- list :: Before(name, other)) ==> Ascending([name] + list)
  {
    forall x
      ensures x in [name] + list <==> x in {name} + Elements(list)
    {
    }
  }

  /** `names` sorted. */
  function Sorted(names: set<string>): (list: seq<string>)
    ensures Elements(list) == names
    ensures Ascending(list)
    decreases |names|
  {
    if names == {} then []
    else
      var first := FirstOf(names);
      var rest := Sorted(names - {first});
      Prepend(first, rest);
      assert forall other <- rest :: other in Elements(rest);
      [first] + rest
  }

  lemma SortedIsDistinct(names: set<string>)
    ensures Distinct(Sorted(names))
  {
    forall i, j | 0 <= i < j < |Sorted(names)|
      ensures Sorted(names)[i] != Sorted(names)[j]
    {
      BeforeIsStrict(Sorted(names)[i], Sorted(names)[j]);
    }
  }
}
