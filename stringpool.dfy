// stringpool/stringpool.go: interning of string literals, with ids given
// in first-seen order. The pool's read/write lock is not modelled; the
// pool is used sequentially.
module StringPool {
  import opened Decimal

  /** The label the assembly uses for the literal with id `id`. */
  function LiteralLabel(id: nat): string { ".LC" + NatToString(id) }

  class StringPool {
    var strings: map<string, nat>
    var stringCount: nat
    /** The interned strings in the order they were first seen. */
    ghost var order: seq<string>

    ghost predicate Valid()
      reads this
    {
      && stringCount == |order|
      && (forall s :: s in strings <==> s in order)
      && (forall i :: 0 <= i < |order| ==> order[i] in strings && strings[order[i]] == i)
    }

    /** NewStringPool (stringpool.go:16-21). */
    constructor ()
      ensures Valid() && strings == map[] && stringCount == 0 && order == []
    {
      strings := map[];
      stringCount := 0;
      order := [];
    }

    /** Ids are the positions in first-seen order, so they are below the
        count and distinct strings have distinct ids. */
    lemma IdsAreDistinct(a: string, b: string)
      requires Valid() && a in strings && b in strings
      ensures strings[a] < stringCount
      ensures a != b ==> strings[a] != strings[b]
      ensures order[strings[a]] == a
    {
      var i :| 0 <= i < |order| && order[i] == a;
      var j :| 0 <= j < |order| && order[j] == b;
    }

    /** Intern (stringpool.go:23-43): a string already in the pool keeps
        its id and nothing changes; a new one gets the next id. */
    method Intern(value: string) returns (id: nat)
      requires Valid()
      modifies this
      ensures Valid()
      ensures old(value in strings) ==>
        id == old(strings[value]) && strings == old(strings)
        && stringCount == old(stringCount) && order == old(order)
      ensures old(value !in strings) ==>
        id == old(stringCount) && strings == old(strings)[value := id]
        && stringCount == old(stringCount) + 1 && order == old(order) + [value]
    {
      if value in strings {
        return strings[value];
      }
      id := stringCount;
      strings := strings[value := id];
      stringCount := stringCount + 1;
      order := order + [value];
    }

    /** GetID (stringpool.go:57-63): the id of an interned string. */
    function GetID(value: string): (r: (nat, bool))
      reads this
      requires Valid()
      ensures r.1 <==> value in order
      ensures r.1 ==> r.0 < stringCount && order[r.0] == value
    {
      if value in strings then
        IdsAreDistinct(value, value);
        (strings[value], true)
      else (0, false)
    }

    /** GetString (stringpool.go:45-55): a scan of the pool for the string
        that carries `id`. */
    method GetString(id: int) returns (s: string, found: bool)
      requires Valid()
      ensures found <==> 0 <= id < stringCount
      ensures found ==> s == order[id] && strings[s] == id
      ensures !found ==> s == ""
    {
      var keys := strings.Keys;
      while keys != {}
        invariant keys <= strings.Keys
        invariant forall k :: k in strings && k !in keys ==> strings[k] != id
        decreases keys
      {
        var k :| k in keys;
        if strings[k] == id {
          IdsAreDistinct(k, k);
          return k, true;
        }
        keys := keys - {k};
      }
      if 0 <= id < stringCount {
        assert strings[order[id]] == id;
      }
      return "", false;
    }

    /** GetLabel (stringpool.go:65-68): interns the string and names its
        literal `.LC<id>`. */
    method GetLabel(value: string) returns (name: string)
      requires Valid()
      modifies this
      ensures Valid()
      ensures value in strings && name == LiteralLabel(strings[value])
      ensures old(value in strings) ==> strings == old(strings) && order == old(order)
      ensures old(value !in strings) ==> order == old(order) + [value]
    {
      var id := Intern(value);
      name := ".LC" + NatToString(id);
    }

    /** GetAllStrings (stringpool.go:70-78): an entry-by-entry copy. */
    method GetAllStrings() returns (result: map<string, nat>)
      requires Valid()
      ensures result == strings
    {
      result := map[];
      var keys := strings.Keys;
      while keys != {}
        invariant keys <= strings.Keys
        invariant result.Keys == strings.Keys - keys
        invariant forall k :: k in result ==> result[k] == strings[k]
        decreases keys
      {
        var k :| k in keys;
        result := result[k := strings[k]];
        keys := keys - {k};
      }
    }
  }

  /** Ids are handed out 0, 1, 2 in first-seen order, and re-interning
      returns the first id. */
  method InternSequence() returns (a: nat, b: nat, c: nat)
    ensures a == 0 && b == 1 && c == 0
  {
    var pool := new StringPool();
    a := pool.Intern("x");
    b := pool.Intern("y");
    c := pool.Intern("x");
  }
}
