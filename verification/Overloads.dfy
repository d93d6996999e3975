/** Java overloads: the order the methods of one name are sorted in, and the search for the one to call. A class is
    known by its name, as in the class map, and a `char` of a name is one byte of it. */
module Overloads {
  import opened Wrappers

  // ---------------------------------------------------------------- classes and values

  type Class = string

  datatype Vtype = Void | Bool | Int | Long | Double | Str | Object

  /** The place of the class's kind in `ase_jni_jvalue_type`; all but the primitive types are objects. */
  function Valtype(c: Class): nat {
    if c == "void" then 0
    else if c == "boolean" then 1
    else if c == "byte" then 2
    else if c == "char" then 3
    else if c == "short" then 4
    else if c == "int" then 5
    else if c == "long" then 6
    else if c == "float" then 7
    else if c == "double" then 8
    else 9
  }

  /** What a value of the class is in ASE. */
  function AseVtype(c: Class): Vtype {
    if c == "void" then Void
    else if c == "boolean" then Bool
    else if c in {"byte", "char", "short", "int"} then Int
    else if c == "long" then Long
    else if c in {"float", "double"} then Double
    else if c == "java.lang.String" then Str
    else Object
  }

  /** An argument: its type and, when it is a Java object, which. */
  datatype Arg = Arg(vtype: Vtype, java: Option<nat>)

  /** What only the Java side knows: the classes a string can be assigned to, and the classes of an object. */
  datatype Jvm = Jvm(fromString: Class -> bool, instanceOf: (nat, Class) -> bool)

  /** A method or constructor: its id and its parameter types. */
  datatype Func = Func(mid: nat, argtypes: seq<Class>)

  // ---------------------------------------------------------------- the comparison

  /** `memcmp` on strings of one length; of its value only the sign is promised. */
  function Memcmp(x: string, y: string): int
    requires |x| == |y|
  {
    if x == [] then 0
    else if x[0] != y[0] then x[0] as int - y[0] as int
    else Memcmp(x[1..], y[1..])
  }

  /** `ase_string::compare`: the shorter string comes first. */
  function NameCompare(x: string, y: string): int {
    if |x| < |y| then -1 else if |x| > |y| then 1 else Memcmp(x, y)
  }

  /** One round of the loop of `compare_internal`. */
  function ClassCompare(x: Class, y: Class): int {
    if Valtype(x) != Valtype(y) then Valtype(x) - Valtype(y) else NameCompare(y, x)
  }

  function ListCompare(x: seq<Class>, y: seq<Class>): int
    requires |x| == |y|
  {
    if x == [] then 0
    else if ClassCompare(x[0], y[0]) != 0 then ClassCompare(x[0], y[0])
    else ListCompare(x[1..], y[1..])
  }

  /** `compare_internal`. */
  function Compare(x: seq<Class>, y: seq<Class>): int {
    if |x| != |y| then |y| - |x| else ListCompare(x, y)
  }

  predicate Less(x: seq<Class>, y: seq<Class>) {
    Compare(x, y) < 0
  }

  method CompareInternal(fx: Func, fy: Func) returns (c: int)
    ensures c == Compare(fx.argtypes, fy.argtypes)
    ensures (c < 0 <==> Before(fx.argtypes, fy.argtypes)) && (c == 0 <==> fx.argtypes == fy.argtypes)
  {
    var x, y := fx.argtypes, fy.argtypes;
    LessIsBefore(x, y);
    CompareTotal(x, y);
    var lendiff := |y| - |x|;
    if lendiff != 0 {
      return lendiff;
    }
    assert x[0..] == x && y[0..] == y;
    for i := 0 to |x|
      invariant Compare(x, y) == ListCompare(x[i..], y[i..])
    {
      assert x[i..][1..] == x[i + 1..] && y[i..][1..] == y[i + 1..];
      var tydiff := Valtype(x[i]) - Valtype(y[i]);
      if tydiff != 0 {
        return tydiff;
      }
      c := NameCompare(y[i], x[i]);
      if c != 0 {
        return;
      }
    }
    return 0;
  }

  // ---------------------------------------------------------------- it is a strict total order on parameter lists

  lemma {:induction false} MemcmpOrders(x: string, y: string)
    requires |x| == |y|
    ensures Memcmp(x, y) == 0 <==> x == y
    ensures Memcmp(x, y) == -Memcmp(y, x)
    decreases |x|
  {
    if x != [] && x[0] == y[0] {
      MemcmpOrders(x[1..], y[1..]);
      assert x == [x[0]] + x[1..] && y == [y[0]] + y[1..];
    }
  }

  lemma {:induction false} MemcmpTransitive(x: string, y: string, z: string)
    requires |x| == |y| == |z| && Memcmp(x, y) < 0 && Memcmp(y, z) < 0
    ensures Memcmp(x, z) < 0
    decreases |x|
  {
    if x[0] == y[0] == z[0] {
      MemcmpTransitive(x[1..], y[1..], z[1..]);
    }
  }

  lemma ClassOrders(x: Class, y: Class)
    ensures ClassCompare(x, y) == 0 <==> x == y
    ensures ClassCompare(x, y) == -ClassCompare(y, x)
  {
    if |x| == |y| {
      MemcmpOrders(x, y);
    }
  }

  lemma ClassTransitive(x: Class, y: Class, z: Class)
    requires ClassCompare(x, y) < 0 && ClassCompare(y, z) < 0
    ensures ClassCompare(x, z) < 0
  {
    if Valtype(x) == Valtype(y) == Valtype(z) && |x| == |y| == |z| {
      MemcmpTransitive(z, y, x);
    }
  }

  lemma {:induction false} ListOrders(x: seq<Class>, y: seq<Class>)
    requires |x| == |y|
    ensures ListCompare(x, y) == 0 <==> x == y
    ensures ListCompare(x, y) == -ListCompare(y, x)
    decreases |x|
  {
    if x != [] {
      ClassOrders(x[0], y[0]);
      if x[0] == y[0] {
        ListOrders(x[1..], y[1..]);
        assert x == [x[0]] + x[1..] && y == [y[0]] + y[1..];
      }
    }
  }

  lemma {:induction false} ListTransitive(x: seq<Class>, y: seq<Class>, z: seq<Class>)
    requires |x| == |y| == |z| && ListCompare(x, y) < 0 && ListCompare(y, z) < 0
    ensures ListCompare(x, z) < 0
    decreases |x|
  {
    ClassOrders(x[0], y[0]);
    ClassOrders(y[0], z[0]);
    ClassOrders(x[0], z[0]);
    if x[0] == y[0] == z[0] {
      ListTransitive(x[1..], y[1..], z[1..]);
    } else if x[0] != y[0] && y[0] != z[0] {
      ClassTransitive(x[0], y[0], z[0]);
    }
  }

  /** `compare_funcinfo` orders any two parameter lists one way round, and calls only identical ones equal. */
  lemma CompareTotal(x: seq<Class>, y: seq<Class>)
    ensures Compare(x, y) == 0 <==> x == y
    ensures Less(x, y) <==> Compare(y, x) > 0
    ensures (if Less(x, y) then 1 else 0) + (if Less(y, x) then 1 else 0) + (if x == y then 1 else 0) == 1
  {
    if |x| == |y| {
      ListOrders(x, y);
    }
  }

  lemma CompareTransitive(x: seq<Class>, y: seq<Class>, z: seq<Class>)
    requires Less(x, y) && Less(y, z)
    ensures Less(x, z)
  {
    if |x| == |y| == |z| {
      ListTransitive(x, y, z);
    }
  }

  // ---------------------------------------------------------------- what the order prefers

  /** The kinds of types in the order of `ase_jni_jvalue_type`, without the last: that of the classes. */
  const KINDS: seq<Class> := ["void", "boolean", "byte", "char", "short", "int", "long", "float", "double"]

  /** The kind that stands earlier; of two classes the one with the longer name, or of two as long the one whose name
      has the greater character where they first differ. */
  ghost predicate Sooner(c: Class, d: Class) {
    || (exists i, j :: 0 <= i < j < |KINDS| && c == KINDS[i] && d == KINDS[j])
    || (c in KINDS && d !in KINDS)
    || (c !in KINDS && d !in KINDS && (|c| > |d| || (|c| == |d| && FirstGreater(c, d))))
  }

  ghost predicate FirstGreater(c: string, d: string)
    requires |c| == |d|
  {
    exists m :: 0 <= m < |c| && c[..m] == d[..m] && c[m] > d[m]
  }

  /** More parameters, or the sooner type at the first difference. */
  ghost predicate Before(x: seq<Class>, y: seq<Class>) {
    || |x| > |y|
    || (|x| == |y| && exists k :: 0 <= k < |x| && x[..k] == y[..k] && Sooner(x[k], y[k]))
  }

  lemma {:induction false} MemcmpGreater(c: string, d: string)
    requires |c| == |d|
    ensures Memcmp(d, c) < 0 <==> FirstGreater(c, d)
    decreases |c|
  {
    if c != [] {
      MemcmpGreater(c[1..], d[1..]);
      if c[0] == d[0] {
        GreaterCons(c, d);
      } else {
        assert c[..0] == d[..0];
        assert forall m :: 0 < m < |c| ==> c[..m][0] != d[..m][0];
      }
    }
  }

  lemma GreaterCons(c: string, d: string)
    requires |c| == |d| && c != [] && c[0] == d[0]
    ensures FirstGreater(c, d) <==> FirstGreater(c[1..], d[1..])
  {
    if FirstGreater(c, d) {
      var m :| 0 <= m < |c| && c[..m] == d[..m] && c[m] > d[m];
      assert c[1..][..m - 1] == c[..m][1..] && d[1..][..m - 1] == d[..m][1..];
      assert c[1..][m - 1] > d[1..][m - 1];
    }
    if FirstGreater(c[1..], d[1..]) {
      var m :| 0 <= m < |c[1..]| && c[1..][..m] == d[1..][..m] && c[1..][m] > d[1..][m];
      assert c[..m + 1] == [c[0]] + c[1..][..m] && d[..m + 1] == [d[0]] + d[1..][..m];
      assert c[m + 1] > d[m + 1];
    }
  }

  lemma KindPlaces(c: Class)
    ensures |KINDS| == 9
    ensures forall i :: 0 <= i < 9 && c == KINDS[i] ==> Valtype(c) == i
    ensures Valtype(c) < 9 ==> c == KINDS[Valtype(c)]
    ensures c in KINDS <==> Valtype(c) < 9
  {
  }

  lemma SoonerKinds(c: Class, d: Class)
    requires c in KINDS && d in KINDS
    ensures Sooner(c, d) <==> Valtype(c) < Valtype(d)
  {
    KindPlaces(c);
    KindPlaces(d);
    hide Valtype;
    if Valtype(c) < Valtype(d) {
      assert c == KINDS[Valtype(c)] && d == KINDS[Valtype(d)];
    }
  }

  lemma SoonerIs(c: Class, d: Class)
    ensures ClassCompare(c, d) < 0 <==> Sooner(c, d)
  {
    KindPlaces(c);
    KindPlaces(d);
    PlaceBound(c);
    PlaceBound(d);
    ClassOrders(c, d);
    hide Valtype;
    if c in KINDS && d in KINDS {
      SoonerKinds(c, d);
      hide Sooner;
      if Valtype(c) == Valtype(d) {
        assert c == d;
      }
    } else if c !in KINDS && d !in KINDS {
      if |c| == |d| {
        MemcmpGreater(c, d);
      }
      ClassesSooner(c, d);
    }
  }

  lemma PlaceBound(c: Class)
    ensures Valtype(c) <= 9
  {
  }

  lemma ClassesSooner(c: Class, d: Class)
    requires c !in KINDS && d !in KINDS
    ensures Sooner(c, d) <==> |c| > |d| || (|c| == |d| && FirstGreater(c, d))
  {
    hide FirstGreater;
  }

  /** Lists of one length are ordered by their first different type. */
  lemma {:induction false} FirstDifference(x: seq<Class>, y: seq<Class>, k: nat)
    requires |x| == |y| && k < |x| && x[..k] == y[..k] && x[k] != y[k]
    ensures Less(x, y) <==> Sooner(x[k], y[k])
    decreases k
  {
    SoonerIs(x[k], y[k]);
    ClassOrders(x[k], y[k]);
    hide Sooner, ClassCompare;
    if k > 0 {
      assert x[0] == x[..k][0] && y[0] == y[..k][0];
      ClassOrders(x[0], y[0]);
      assert x[1..][..k - 1] == x[..k][1..] && y[1..][..k - 1] == y[..k][1..];
      FirstDifference(x[1..], y[1..], k - 1);
    }
  }

  lemma {:induction false} FindDifference(x: seq<Class>, y: seq<Class>) returns (k: nat)
    requires |x| == |y| && x != y
    ensures k < |x| && x[..k] == y[..k] && x[k] != y[k]
    decreases |x|
  {
    if x[0] != y[0] {
      k := 0;
    } else {
      assert x == [x[0]] + x[1..] && y == [y[0]] + y[1..];
      var j := FindDifference(x[1..], y[1..]);
      k := j + 1;
      assert x[..k] == [x[0]] + x[1..][..j] && y[..k] == [y[0]] + y[1..][..j];
    }
  }

  /** What `compare_funcinfo` prefers, in the terms of the Java types themselves. */
  lemma LessIsBefore(x: seq<Class>, y: seq<Class>)
    ensures Less(x, y) <==> Before(x, y)
  {
    CompareTotal(x, y);
    if |x| == |y| {
      if x != y && Less(x, y) {
        var k := FindDifference(x, y);
        FirstDifference(x, y, k);
      }
      if Before(x, y) {
        var k :| 0 <= k < |x| && x[..k] == y[..k] && Sooner(x[k], y[k]);
        SoonerIs(x[k], y[k]);
        ClassOrders(x[k], y[k]);
        FirstDifference(x, y, k);
      }
    }
    hide Sooner, ClassCompare, ListCompare;
  }

  // ---------------------------------------------------------------- which methods apply

  /** All numbers are one. */
  function CategorizeVtype(t: Vtype): Vtype {
    if t == Int || t == Double then Long else t
  }

  predicate Matches(jvm: Jvm, c: Class, a: Arg) {
    var p, v := CategorizeVtype(AseVtype(c)), CategorizeVtype(a.vtype);
    if p != v then
      || ((p == Object || p == Str) && v == Void)
      || (p == Object && v == Str && jvm.fromString(c))
    else
      p == Object ==> a.java.Some? && jvm.instanceOf(a.java.value, c)
  }

  const NUMBERS: set<Class> := {"byte", "char", "short", "int", "long", "float", "double"}

  predicate IsClass(c: Class) {
    Valtype(c) == 9
  }

  /** What each kind of argument can be passed as: a number as any number, null as any class, a string as a string or a
      class a string can be assigned to, a Java object as a class it is of; anything else as nothing. */
  lemma PassedAs(jvm: Jvm, c: Class, a: Arg)
    ensures Matches(jvm, c, a) <==>
      match a.vtype
      case Void => c == "void" || IsClass(c)
      case Bool => c == "boolean"
      case Str => c == "java.lang.String" || (IsClass(c) && jvm.fromString(c))
      case Object => IsClass(c) && c != "java.lang.String" && a.java.Some? && jvm.instanceOf(a.java.value, c)
      case _ => c in NUMBERS
  {
    assert AseVtype("java.lang.String") == Str && IsClass("java.lang.String");
  }

  predicate Applies(jvm: Jvm, cs: seq<Class>, args: seq<Arg>) {
    |cs| == |args| && forall j :: 0 <= j < |cs| ==> Matches(jvm, cs[j], args[j])
  }

  function First(jvm: Jvm, funcs: seq<Func>, args: seq<Arg>): Option<Func> {
    if funcs == [] then None
    else if Applies(jvm, funcs[0].argtypes, args) then Some(funcs[0])
    else First(jvm, funcs[1..], args)
  }

  /** `find_func_overloaded`; `None` is its null pointer. */
  method FindFuncOverloaded(jvm: Jvm, funcs: seq<Func>, args: seq<Arg>) returns (r: Option<Func>)
    ensures r == First(jvm, funcs, args)
  {
    assert funcs[0..] == funcs;
    for i := 0 to |funcs|
      invariant First(jvm, funcs, args) == First(jvm, funcs[i..], args)
    {
      assert funcs[i..][1..] == funcs[i + 1..];
      var cs := funcs[i].argtypes;
      if |cs| != |args| {
        continue;
      }
      var j := 0;
      while j < |cs|
        invariant 0 <= j <= |cs| && forall k :: 0 <= k < j ==> Matches(jvm, cs[k], args[k])
      {
        var arg := args[j];
        var paramvt, argvt := CategorizeVtype(AseVtype(cs[j])), CategorizeVtype(arg.vtype);
        if paramvt != argvt {
          if (paramvt == Object || paramvt == Str) && argvt == Void {
            j := j + 1;
            continue;
          }
          if paramvt == Object && argvt == Str {
            if jvm.fromString(cs[j]) {
              j := j + 1;
              continue;
            }
          }
          break;
        }
        if paramvt == Object {
          if arg.java.None? {
            break;
          }
          if !jvm.instanceOf(arg.java.value, cs[j]) {
            break;
          }
        }
        j := j + 1;
      }
      if j == |cs| {
        return Some(funcs[i]);
      }
    }
    return None;
  }

  // ---------------------------------------------------------------- what is found

  /** What `std::sort` with `compare_funcinfo` may leave: the same methods, in an order the comparison does not object
      to. */
  ghost predicate SortOf(listed: seq<Func>, funcs: seq<Func>) {
    && multiset(funcs) == multiset(listed)
    && forall i, j :: 0 <= i < j < |funcs| ==> !Less(funcs[j].argtypes, funcs[i].argtypes)
  }

  lemma {:induction false} FirstIndex(jvm: Jvm, funcs: seq<Func>, args: seq<Arg>) returns (i: nat)
    ensures i <= |funcs| && forall k :: 0 <= k < i ==> !Applies(jvm, funcs[k].argtypes, args)
    ensures if i == |funcs| then First(jvm, funcs, args) == None
            else Applies(jvm, funcs[i].argtypes, args) && First(jvm, funcs, args) == Some(funcs[i])
    decreases |funcs|
  {
    if funcs == [] || Applies(jvm, funcs[0].argtypes, args) {
      i := 0;
    } else {
      var k := FirstIndex(jvm, funcs[1..], args);
      i := k + 1;
      assert forall j :: 0 < j < |funcs| ==> funcs[j] == funcs[1..][j - 1];
    }
  }

  lemma SameMembers(s: seq<Func>, s': seq<Func>)
    requires multiset(s) == multiset(s')
    ensures |s| == |s'| && forall f :: f in s <==> f in s'
  {
    forall f: Func ensures f in s <==> f in s' {
      assert f in s <==> f in multiset(s);
      assert f in s' <==> f in multiset(s');
    }
    assert |s| == |multiset(s)| && |s'| == |multiset(s')|;
  }

  /** The search fails exactly when no method applies, and otherwise finds one with the least parameter list of those
      that do. */
  lemma FindsLeast(jvm: Jvm, listed: seq<Func>, funcs: seq<Func>, args: seq<Arg>)
    requires SortOf(listed, funcs)
    ensures First(jvm, funcs, args) == None <==> forall f :: f in listed ==> !Applies(jvm, f.argtypes, args)
    ensures First(jvm, funcs, args).Some? ==>
      var r := First(jvm, funcs, args).value;
      && r in listed && Applies(jvm, r.argtypes, args)
      && forall f :: f in listed && Applies(jvm, f.argtypes, args) ==>
           f.argtypes == r.argtypes || Before(r.argtypes, f.argtypes)
  {
    hide Less, Before, Applies;
    var i := FirstIndex(jvm, funcs, args);
    SameMembers(listed, funcs);
    if i < |funcs| {
      var r := funcs[i];
      assert r in listed;
      forall f | f in listed && Applies(jvm, f.argtypes, args)
        ensures f.argtypes == r.argtypes || Before(r.argtypes, f.argtypes)
      {
        LessIsBefore(r.argtypes, f.argtypes);
        assert f in funcs;
        var k :| 0 <= k < |funcs| && funcs[k] == f;
        CompareTotal(r.argtypes, f.argtypes);
        assert i <= k;
      }
    } else {
      forall f | f in listed ensures !Applies(jvm, f.argtypes, args) {
        assert f in funcs;
      }
    }
  }

  /** Whichever way reflection lists the methods and the sort places equals, the parameter list found is the same; if no
      two methods share a parameter list, so is the method. */
  lemma ListingDoesNotMatter(jvm: Jvm, listed: seq<Func>, listed': seq<Func>, funcs: seq<Func>, funcs': seq<Func>,
                             args: seq<Arg>)
    requires multiset(listed) == multiset(listed') && SortOf(listed, funcs) && SortOf(listed', funcs')
    ensures var r, r' := First(jvm, funcs, args), First(jvm, funcs', args);
      && (r.Some? <==> r'.Some?)
      && (r.Some? ==> r.value.argtypes == r'.value.argtypes)
      && ((forall f, g :: f in listed && g in listed && f.argtypes == g.argtypes ==> f == g) ==> r == r')
  {
    hide Applies, Before, Less, Compare;
    SameMembers(listed, listed');
    FindsLeast(jvm, listed, funcs, args);
    FindsLeast(jvm, listed', funcs', args);
    var r, r' := First(jvm, funcs, args), First(jvm, funcs', args);
    if r.Some? {
      LessIsBefore(r.value.argtypes, r'.value.argtypes);
      LessIsBefore(r'.value.argtypes, r.value.argtypes);
      CompareTotal(r.value.argtypes, r'.value.argtypes);
      CompareTotal(r'.value.argtypes, r.value.argtypes);
    }
  }

  /** If methods do share the parameter list that is found, any of them may be found. */
  lemma AnyEqualMayBeFound(jvm: Jvm, listed: seq<Func>, funcs: seq<Func>, args: seq<Arg>, f: Func)
    returns (funcs': seq<Func>)
    requires SortOf(listed, funcs) && First(jvm, funcs, args).Some?
    requires f in listed && f.argtypes == First(jvm, funcs, args).value.argtypes
    ensures SortOf(listed, funcs') && First(jvm, funcs', args) == Some(f)
  {
    hide Less, Applies;
    var i := FirstIndex(jvm, funcs, args);
    SameMembers(listed, funcs);
    var k :| 0 <= k < |funcs| && funcs[k] == f;
    funcs' := funcs[i := funcs[k]][k := funcs[i]];
    assert forall j :: 0 <= j < |funcs| ==> funcs'[j].argtypes == funcs[j].argtypes;
    var i' := FirstIndex(jvm, funcs', args);
    assert i' == i;
  }
}
