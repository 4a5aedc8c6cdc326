/** `cn`, the class-name combinator of src/lib/utils/index.ts. */
module ClassNames {
  import opened Text
  import opened Lists

  /** One argument of `cn`: a string, `undefined`, `null` or `false`. */
  datatype ClassValue = ClassString(s: string) | Undefined | Null | False {
    /** `Boolean(value)`: only a non-empty string is truthy. */
    predicate IsTruthy() {
      ClassString? && s != ""
    }
  }

  /** `classes.filter(Boolean)`, as strings. */
  function TruthyClasses(classes: seq<ClassValue>): (r: seq<string>)
    ensures |r| <= |classes|
    ensures forall k | 0 <= k < |r| :: r[k] != ""
    ensures forall x :: x in r <==> ClassString(x) in classes && x != ""
  {
    if classes == [] then []
    else
      assert classes == [classes[0]] + classes[1..];
      (if classes[0].IsTruthy() then [classes[0].s] else []) + TruthyClasses(classes[1..])
  }

  /** `cn(...classes)`: the truthy arguments, in order, separated by single spaces. */
  function Cn(classes: seq<ClassValue>): string {
    Join(TruthyClasses(classes), " ")
  }

  /** `Boolean` as a predicate on arguments, for `Lists.Filter`. */
  predicate IsTruthyValue(v: ClassValue) {
    v.IsTruthy()
  }

  /** The class string of each argument (`""` for the falsy ones). */
  function Texts(vs: seq<ClassValue>): (r: seq<string>)
    ensures |r| == |vs|
  {
    if vs == [] then [] else [if vs[0].ClassString? then vs[0].s else ""] + Texts(vs[1..])
  }

  /**
   * The truthy strings are those of the arguments that `Boolean` keeps, in argument order:
   * the kept arguments are a subsequence of all of them.
   */
  lemma {:induction false} TruthyClassesInOrder(classes: seq<ClassValue>)
    ensures TruthyClasses(classes) == Texts(Filter(classes, IsTruthyValue))
    ensures IsSubsequence(Filter(classes, IsTruthyValue), classes)
  {
    FilterIsSubsequence(classes, IsTruthyValue);
    if classes != [] {
      TruthyClassesInOrder(classes[1..]);
      var rest := Filter(classes[1..], IsTruthyValue);
      if IsTruthyValue(classes[0]) {
        assert Filter(classes, IsTruthyValue) == [classes[0]] + rest;
        assert ([classes[0]] + rest)[1..] == rest;
      } else {
        assert Filter(classes, IsTruthyValue) == rest;
      }
    }
  }

  lemma {:induction false} TruthyClassesAppend(a: seq<ClassValue>, b: seq<ClassValue>)
    ensures TruthyClasses(a + b) == TruthyClasses(a) + TruthyClasses(b)
  {
    if a != [] {
      TruthyClassesAppend(a[1..], b);
      assert (a + b)[0] == a[0] && (a + b)[1..] == a[1..] + b;
    } else {
      assert a + b == b;
    }
  }

  /** A single class string comes back unchanged, spaces and all. */
  lemma CnSingle(s: string)
    requires s != ""
    ensures Cn([ClassString(s)]) == s
  {
  }

  /**
   * One more argument: a falsy one changes nothing; a truthy one is appended after a single
   * space, or stands alone when nothing before it was truthy. With `Cn([]) == ""` this
   * determines `cn` for every argument list, multi-class strings included.
   */
  lemma CnAppend(classes: seq<ClassValue>, v: ClassValue)
    ensures !v.IsTruthy() ==> Cn(classes + [v]) == Cn(classes)
    ensures v.IsTruthy() && Cn(classes) == "" ==> Cn(classes + [v]) == v.s
    ensures v.IsTruthy() && Cn(classes) != "" ==> Cn(classes + [v]) == Cn(classes) + " " + v.s
  {
    TruthyClassesAppend(classes, [v]);
    assert [v][1..] == [];
    var t := TruthyClasses(classes);
    if !v.IsTruthy() {
      assert TruthyClasses(classes + [v]) == t + [];
      assert t + [] == t;
    } else {
      CnEmptyIff(classes);
      TruthyNoneIff(classes);
      if t == [] {
        assert TruthyClasses(classes + [v]) == [v.s];
      } else {
        assert TruthyClasses(classes + [v]) == t + [v.s];
        JoinAppend(t, v.s, " ");
      }
    }
  }

  lemma {:induction false} JoinNonEmpty(xs: seq<string>)
    requires xs != [] && xs[0] != ""
    ensures Join(xs, " ") != ""
  {
  }

  /** `cn` yields the empty string exactly when no argument is truthy. */
  lemma CnEmptyIff(classes: seq<ClassValue>)
    ensures Cn(classes) == "" <==> forall k | 0 <= k < |classes| :: !classes[k].IsTruthy()
  {
    TruthyNoneIff(classes);
    var t := TruthyClasses(classes);
    if t != [] {
      JoinNonEmpty(t);
    }
  }

  lemma {:induction false} TruthyNoneIff(classes: seq<ClassValue>)
    ensures TruthyClasses(classes) == [] <==> forall k | 0 <= k < |classes| :: !classes[k].IsTruthy()
  {
    if classes != [] {
      TruthyNoneIff(classes[1..]);
      assert forall k | 1 <= k < |classes| :: classes[k] == classes[1..][k - 1];
    }
  }

  /** When no class name contains a space, splitting the result at spaces recovers the truthy arguments. */
  lemma CnSplitsBack(classes: seq<ClassValue>)
    requires TruthyClasses(classes) != []
    requires forall k | 0 <= k < |classes| :: classes[k].ClassString? ==> ' ' !in classes[k].s
    ensures SplitSpace(Cn(classes)) == TruthyClasses(classes)
  {
    SplitJoin(TruthyClasses(classes));
  }
}
