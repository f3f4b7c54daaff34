/** A global constraint over a list of parameters: at most one of them may be
    set.  The constraint keeps references to the parameter objects; whether
    a parameter is set is read when the constraint is tested, not when it is
    built. */
module ParameterConstraints {

  /** A command-line parameter: a fixed name and whether a value was given. */
  class Parameter {
    const name: string
    var isSet: bool

    constructor (name: string, isSet: bool)
      ensures this.name == name && this.isSet == isSet
    {
      this.name := name;
      this.isSet := isSet;
    }
  }

  /** The error the constraint reports: the parameters it constrains and
      the names of those currently set. */
  datatype ParameterException = WrongParameterValue(constrained: string, currentlySet: seq<string>)

  datatype Outcome = Passed | Failed(error: ParameterException)

  // ---------------------------------------------------------------------
  // Names
  // ---------------------------------------------------------------------

  /** The names of the parameters, in list order. */
  function Names(ps: seq<Parameter>): (r: seq<string>)
    ensures |r| == |ps| && forall i :: 0 <= i < |ps| ==> r[i] == ps[i].name
  {
    if ps == [] then [] else Names(ps[..|ps| - 1]) + [ps[|ps| - 1].name]
  }

  /** The names of the parameters that are set, in list order: at most one
      per parameter, none when no parameter is set and every name when all
      are. */
  function SetNames(ps: seq<Parameter>): (r: seq<string>)
    reads ps
    ensures |r| <= |ps|
    ensures (forall i :: 0 <= i < |ps| ==> !ps[i].isSet) ==> r == []
    ensures (forall i :: 0 <= i < |ps| ==> ps[i].isSet) ==> r == Names(ps)
  {
    if ps == [] then []
    else SetNames(ps[..|ps| - 1]) + (if ps[|ps| - 1].isSet then [ps[|ps| - 1].name] else [])
  }

  /** Collecting set names distributes over concatenation: the names of
      the first part come first, in their own order. */
  lemma {:induction false} SetNamesConcat(a: seq<Parameter>, b: seq<Parameter>)
    ensures SetNames(a + b) == SetNames(a) + SetNames(b)
  {
    if b == [] {
      assert a + b == a;
    } else {
      var k := |b| - 1;
      assert (a + b)[..|a + b| - 1] == a + b[..k];
      SetNamesConcat(a, b[..k]);
    }
  }

  /** A name is collected exactly when some set parameter carries it. */
  lemma {:induction false} SetNamesMembership(ps: seq<Parameter>, n: string)
    ensures n in SetNames(ps) <==> exists i :: 0 <= i < |ps| && ps[i].isSet && ps[i].name == n
  {
    if ps != [] {
      var k := |ps| - 1;
      var q := ps[..k];
      SetNamesMembership(q, n);
      if exists i :: 0 <= i < |ps| && ps[i].isSet && ps[i].name == n {
        var i :| 0 <= i < |ps| && ps[i].isSet && ps[i].name == n;
        if i < k {
          assert q[i] == ps[i];
        }
      }
      if exists i :: 0 <= i < |q| && q[i].isSet && q[i].name == n {
        var i :| 0 <= i < |q| && q[i].isSet && q[i].name == n;
        assert ps[i] == q[i];
      }
    }
  }

  /** Some name is collected exactly when some parameter is set. */
  lemma {:induction false} SomeSetIff(ps: seq<Parameter>)
    ensures |SetNames(ps)| >= 1 <==> exists i :: 0 <= i < |ps| && ps[i].isSet
  {
    if ps != [] {
      var k := |ps| - 1;
      var q := ps[..k];
      SomeSetIff(q);
      if exists i :: 0 <= i < |q| && q[i].isSet {
        var i :| 0 <= i < |q| && q[i].isSet;
        assert ps[i] == q[i];
      }
      if exists i :: 0 <= i < |ps| && ps[i].isSet {
        var i :| 0 <= i < |ps| && ps[i].isSet;
        if i < k {
          assert q[i] == ps[i];
        }
      }
    }
  }

  /** Two parameters of the list, at different positions, are both set. */
  predicate TwoSet(ps: seq<Parameter>)
    reads ps
  {
    exists i, j :: 0 <= i < j < |ps| && ps[i].isSet && ps[j].isSet
  }

  /** More than one name is collected exactly when two parameters are set. */
  lemma {:induction false} MoreThanOneSetIff(ps: seq<Parameter>)
    ensures |SetNames(ps)| > 1 <==> TwoSet(ps)
  {
    if ps != [] {
      var k := |ps| - 1;
      var q := ps[..k];
      MoreThanOneSetIff(q);
      SomeSetIff(q);
      if TwoSet(q) {
        var i, j :| 0 <= i < j < |q| && q[i].isSet && q[j].isSet;
        assert ps[i] == q[i] && ps[j] == q[j];
      }
      if TwoSet(ps) {
        var i, j :| 0 <= i < j < |ps| && ps[i].isSet && ps[j].isSet;
        assert q[i] == ps[i];
        if j < k {
          assert q[j] == ps[j];
          assert TwoSet(q);
        }
      }
      if ps[k].isSet && exists i :: 0 <= i < |q| && q[i].isSet {
        var i :| 0 <= i < |q| && q[i].isSet;
        assert ps[i] == q[i];
        assert TwoSet(ps);
      }
    }
  }

  // ---------------------------------------------------------------------
  // Rendering the names
  // ---------------------------------------------------------------------

  /** The names separated by commas: "a,b,c". */
  function Join(ns: seq<string>): string
  {
    if ns == [] then ""
    else if |ns| == 1 then ns[0]
    else Join(ns[..|ns| - 1]) + "," + ns[|ns| - 1]
  }

  /** The names in brackets: "[a,b,c]". */
  function NamesToString(ns: seq<string>): string
  {
    "[" + Join(ns) + "]"
  }

  /** `sub` occurs in `s` starting at position k. */
  predicate OccursAt(s: string, sub: string, k: int)
  {
    0 <= k && k + |sub| <= |s| && s[k..k + |sub|] == sub
  }

  /** `sub` occurs in `s` as a contiguous block. */
  predicate Contains(s: string, sub: string)
  {
    exists k :: 0 <= k <= |s| && OccursAt(s, sub, k)
  }

  lemma ContainsConcat(a: string, b: string, sub: string)
    requires Contains(a, sub) || Contains(b, sub)
    ensures Contains(a + b, sub)
  {
    if Contains(a, sub) {
      var k :| 0 <= k <= |a| && OccursAt(a, sub, k);
      assert (a + b)[k..k + |sub|] == a[k..k + |sub|];
      assert OccursAt(a + b, sub, k);
    } else {
      var k :| 0 <= k <= |b| && OccursAt(b, sub, k);
      assert (a + b)[|a| + k..|a| + k + |sub|] == b[k..k + |sub|];
      assert OccursAt(a + b, sub, |a| + k);
    }
  }

  lemma ContainsWhole(s: string)
    ensures Contains(s, s)
  {
    assert s[0..|s|] == s;
    assert OccursAt(s, s, 0);
  }

  /** Every name appears in the joined list. */
  lemma {:induction false} JoinContainsEveryName(ns: seq<string>, i: nat)
    requires i < |ns|
    ensures Contains(Join(ns), ns[i])
  {
    var k := |ns| - 1;
    if |ns| == 1 {
      ContainsWhole(ns[0]);
    } else if i == k {
      ContainsWhole(ns[k]);
      ContainsConcat(Join(ns[..k]) + ",", ns[k], ns[k]);
    } else {
      JoinContainsEveryName(ns[..k], i);
      ContainsConcat(Join(ns[..k]), ",", ns[i]);
      ContainsConcat(Join(ns[..k]) + ",", ns[k], ns[i]);
    }
  }

  /** The bracketed list mentions every name. */
  lemma NamesToStringContainsEveryName(ns: seq<string>, i: nat)
    requires i < |ns|
    ensures Contains(NamesToString(ns), ns[i])
  {
    JoinContainsEveryName(ns, i);
    ContainsConcat("[", Join(ns), ns[i]);
    ContainsConcat("[" + Join(ns), "]", ns[i]);
  }

  // ---------------------------------------------------------------------
  // The constraint
  // ---------------------------------------------------------------------

  class OnlyOneIsAllowedToBeSetGlobalConstraint {
    /** The parameters to be checked. */
    var parameters: seq<Parameter>

    constructor (params: seq<Parameter>)
      ensures parameters == params
    {
      parameters := params;
    }

    /** Passes when at most one parameter is set; otherwise fails with the
        names of the set parameters, in list order.  Only reads the
        parameters. */
    method Test() returns (r: Outcome)
      ensures r.Failed? <==> TwoSet(parameters)
      ensures r.Failed? <==> |SetNames(parameters)| > 1
      ensures r.Failed? ==> r.error == WrongParameterValue(NamesToString(Names(parameters)), SetNames(parameters))
    {
      var names: seq<string> := [];
      for k := 0 to |parameters|
        invariant names == SetNames(parameters[..k])
      {
        var p := parameters[k];
        assert parameters[..k + 1][..k] == parameters[..k];
        if p.isSet {
          names := names + [p.name];
        }
      }
      assert parameters[..|parameters|] == parameters;
      MoreThanOneSetIff(parameters);
      if |names| > 1 {
        r := Failed(WrongParameterValue(NamesToString(Names(parameters)), names));
      } else {
        r := Passed;
      }
    }

    /** The description names every constrained parameter and reads only
        the list, never whether a parameter is set. */
    function GetDescription(): (r: string)
      reads this
      ensures forall i :: 0 <= i < |parameters| ==> Contains(r, parameters[i].name)
    {
      var list := NamesToString(Names(parameters));
      var r := "Only one of the parameters " + list + " is allowed to be set.";
      assert forall i :: 0 <= i < |parameters| ==> Contains(r, parameters[i].name) by {
        forall i | 0 <= i < |parameters|
          ensures Contains(r, parameters[i].name)
        {
          NamesToStringContainsEveryName(Names(parameters), i);
          ContainsConcat("Only one of the parameters ", list, parameters[i].name);
          ContainsConcat("Only one of the parameters " + list, " is allowed to be set.", parameters[i].name);
        }
      }
      r
    }
  }
}
