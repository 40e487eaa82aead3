/**
 * `cn` (`utils.ts`): the class-name arguments that are strings, in order,
 * joined by single spaces. `undefined`, `null`, `false` and class records
 * are dropped.
 */
module ClassNames {
  import opened Common
  import opened Strings

  /** One argument of `cn`. A record is kept abstract: `cn` drops it whatever it holds. */
  datatype ClassValue = Str(s: string) | Undefined | Null | False | Record(entries: seq<(string, bool)>)

  /** `.filter((item) => typeof item === 'string')`. */
  function Kept(args: seq<ClassValue>): (r: seq<string>)
    ensures |r| <= |args|
    ensures forall x :: x in r <==> Str(x) in args
  {
    if args == [] then []
    else
      var rest := Kept(args[1..]);
      assert forall x :: Str(x) in args <==> Str(x) == args[0] || Str(x) in args[1..];
      if args[0].Str? then [args[0].s] + rest else rest
  }

  /** The kept strings keep the order of the arguments. */
  lemma {:induction false} KeptAppend(a: seq<ClassValue>, b: seq<ClassValue>)
    ensures Kept(a + b) == Kept(a) + Kept(b)
  {
    if a == [] {
      assert a + b == b;
    } else {
      assert (a + b)[0] == a[0];
      assert (a + b)[1..] == a[1..] + b;
      KeptAppend(a[1..], b);
      AppendAssoc(if a[0].Str? then [a[0].s] else [], Kept(a[1..]), Kept(b));
    }
  }

  function Cn(args: seq<ClassValue>): string
  {
    Join(Kept(args), " ")
  }

  /** Without a string argument nothing is kept. */
  lemma {:induction false} KeptNone(args: seq<ClassValue>)
    requires forall i :: 0 <= i < |args| ==> !args[i].Str?
    ensures Kept(args) == []
  {
    if args != [] {
      KeptNone(args[1..]);
    }
  }

  /** With no string argument the result is empty; a single string comes back unchanged. */
  lemma CnFewStrings(args: seq<ClassValue>, s: string)
    ensures (forall i :: 0 <= i < |args| ==> !args[i].Str?) ==> Cn(args) == ""
    ensures Cn([Str(s)]) == s
  {
    if forall i :: 0 <= i < |args| ==> !args[i].Str? {
      KeptNone(args);
    }
    assert [Str(s)][1..] == [];
  }

  /** Dropped values leave no trace: adding one anywhere gives the same class string. */
  lemma CnIgnoresNonStrings(a: seq<ClassValue>, v: ClassValue, b: seq<ClassValue>)
    requires !v.Str?
    ensures Cn(a + [v] + b) == Cn(a + b)
  {
    KeptAppend(a + [v], b);
    KeptAppend(a, [v]);
    KeptAppend(a, b);
    assert [v][1..] == [];
    assert Kept([v]) == [];
    assert Kept(a + [v]) == Kept(a) + [] == Kept(a);
    assert Kept(a + [v] + b) == Kept(a + b);
  }

  /** Empty strings are kept, so they show as adjacent spaces. */
  lemma CnKeepsEmptyStrings()
    ensures Cn([Str("a"), Str(""), Undefined, Str("b")]) == "a  b"
  {
    var args := [Str("a"), Str(""), Undefined, Str("b")];
    assert args[1..][1..][1..][1..] == [];
    assert Kept(args) == ["a", "", "b"];
    assert ["a", "", "b"][1..] == ["", "b"];
    assert ["", "b"][1..] == ["b"];
  }

  /** When no kept string holds a space, the space-separated parts of the result are exactly the kept strings, in order. */
  lemma CnParts(args: seq<ClassValue>)
    requires Kept(args) != []
    requires forall i :: 0 <= i < |args| && args[i].Str? ==> ' ' !in args[i].s
    ensures SplitOn(Cn(args), ' ') == Kept(args)
  {
    var parts := Kept(args);
    forall k | 0 <= k < |parts|
      ensures ' ' !in parts[k]
    {
      assert parts[k] in parts;
      var i :| 0 <= i < |args| && args[i] == Str(parts[k]);
    }
    SplitJoin(parts, ' ');
  }
}
