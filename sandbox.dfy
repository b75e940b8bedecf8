/** The sandbox compiler (`buildCreateComponent`): the text handed to the
    evaluator, which binds each key of the global namespace before the source,
    and the check that the default export is a function. */
module Sandbox {
  import opened JsValues

  const GlobalName := "__DYNAMICCOMPONENT__"

  /** `var key = __DYNAMICCOMPONENT__.key;` */
  function Declaration(key: string): (d: string)
    ensures |d| == 2 * |key| + |GlobalName| + 9
    ensures d[..4] == "var " && d[4..4 + |key|] == key
    ensures d[|d| - |key| - |GlobalName| - 2..] == GlobalName + "." + key + ";"
    ensures '\n' !in key ==> '\n' !in d
  {
    "var " + key + " = " + GlobalName + "." + key + ";"
  }

  /** `Object.keys(global).map(...)`: one declaration per key, in key order. */
  function Declarations(keys: seq<string>): (ds: seq<string>)
    ensures |ds| == |keys| && forall i :: 0 <= i < |keys| ==> ds[i] == Declaration(keys[i])
    ensures (forall i :: 0 <= i < |keys| ==> '\n' !in keys[i]) ==> forall i :: 0 <= i < |ds| ==> '\n' !in ds[i]
  {
    seq(|keys|, i requires 0 <= i < |keys| => Declaration(keys[i]))
  }

  /** `Array.prototype.join` with a one-character separator. */
  function Join(parts: seq<string>, sep: char): (r: string)
    ensures |parts| == 0 ==> r == ""
    ensures |parts| >= 1 ==> parts[0] <= r
  {
    if |parts| == 0 then ""
    else if |parts| == 1 then parts[0]
    else parts[0] + [sep] + Join(parts[1..], sep)
  }

  /** `String.prototype.split` with a one-character separator. */
  function Split(s: string, sep: char): (parts: seq<string>)
    ensures |parts| >= 1
  {
    if s == [] then [""]
    else if s[0] == sep then [""] + Split(s[1..], sep)
    else
      var rest := Split(s[1..], sep);
      [[s[0]] + rest[0]] + rest[1..]
  }

  /** The lines that bind the global namespace's keys. */
  function Bindings(keys: seq<string>): (r: string)
    ensures r == "" <==> |keys| == 0
  {
    Join(Declarations(keys), '\n')
  }

  /** What separates the bindings from the source, and what follows the source. */
  const Opening := "; const exports = {}; "
  const Closing := "; return exports.default;"

  /** The body of the evaluated function: the bindings, then the source, then
      the default export as the returned value. */
  function Prelude(keys: seq<string>, src: string): (r: string)
    ensures Bindings(keys) <= r
    ensures |r| == |Bindings(keys)| + |Opening| + |src| + |Closing|
  {
    Bindings(keys) + Opening + src + Closing
  }

  /** The compiled text reads back as its three parts: the bindings, the source
      verbatim between the opening and the closing, and the returned default export. */
  lemma PreludeParts(keys: seq<string>, src: string)
    ensures var r := Prelude(keys, src);
            && r[..|Bindings(keys)|] == Bindings(keys)
            && r[|Bindings(keys)|..|Bindings(keys)| + |Opening|] == Opening
            && r[|Bindings(keys)| + |Opening|..|r| - |Closing|] == src
            && r[|r| - |Closing|..] == Closing
  {
    ConcatSlices(Bindings(keys), Opening, src, Closing);
  }

  /** Each of four concatenated pieces can be read back by slicing. */
  lemma ConcatSlices(a: string, b: string, c: string, d: string)
    ensures (a + b + c + d)[..|a|] == a
    ensures (a + b + c + d)[|a|..|a| + |b|] == b
    ensures (a + b + c + d)[|a| + |b|..|a + b + c + d| - |d|] == c
    ensures (a + b + c + d)[|a + b + c + d| - |d|..] == d
  {
    var r := a + b + c + d;
    assert r == a + (b + c + d);
    assert r == (a + b) + c + d;
    assert r == (a + b + c) + d;
  }

  function ExpectedFunctionMessage(kind: string): string
  {
    "[DynamicComponent]: Expected function, encountered " + kind
      + ". Did you forget to mark your Wormhole as a default export?"
  }

  /** Awaits the evaluation of `Prelude(keys, src)` and accepts only a function:
      `evaluation` stands for what running that text returned or threw. */
  function CreateComponent(evaluation: Try<Value>): (r: Try<nat>)
    ensures r.Returned? <==> evaluation.Returned? && evaluation.value.Function?
    ensures r.Returned? ==> evaluation.value == Function(r.value)
    ensures evaluation.Threw? ==> r == Threw(evaluation.thrown)
    ensures evaluation.Returned? && !evaluation.value.Function? ==>
              r == Threw(MakeError(ExpectedFunctionMessage(TypeOf(evaluation.value))))
  {
    match evaluation
    case Threw(e) => Threw(e)
    case Returned(v) =>
      if v.Function? then Returned(v.id)
      else Threw(MakeError(ExpectedFunctionMessage(TypeOf(v))))
  }

  lemma {:induction false} SplitPlain(p: string, sep: char)
    requires sep !in p
    ensures Split(p, sep) == [p]
  {
    if p != [] {
      SplitPlain(p[1..], sep);
      assert [p[0]] + p[1..] == p;
    }
  }

  lemma {:induction false} SplitAtSeparator(p: string, sep: char, rest: string)
    requires sep !in p
    ensures Split(p + [sep] + rest, sep) == [p] + Split(rest, sep)
  {
    if p == [] {
      assert p + [sep] + rest == [sep] + rest;
      assert ([sep] + rest)[1..] == rest;
    } else {
      SplitAtSeparator(p[1..], sep, rest);
      assert (p + [sep] + rest)[1..] == p[1..] + [sep] + rest;
      assert [p[0]] + p[1..] == p;
    }
  }

  /** Splitting a joined list gives the list back when no part holds the separator. */
  lemma {:induction false} SplitJoin(parts: seq<string>, sep: char)
    requires |parts| >= 1
    requires forall i :: 0 <= i < |parts| ==> sep !in parts[i]
    ensures Split(Join(parts, sep), sep) == parts
  {
    if |parts| == 1 {
      SplitPlain(parts[0], sep);
    } else {
      SplitJoin(parts[1..], sep);
      SplitAtSeparator(parts[0], sep, Join(parts[1..], sep));
      assert [parts[0]] + parts[1..] == parts;
    }
  }

  /** A join of parts free of the separator holds one separator between each
      two neighbouring parts and no other. */
  lemma {:induction false} JoinSeparators(parts: seq<string>, sep: char)
    requires |parts| >= 1
    requires forall i :: 0 <= i < |parts| ==> sep !in parts[i]
    ensures multiset(Join(parts, sep))[sep] == |parts| - 1
  {
    if |parts| > 1 {
      JoinSeparators(parts[1..], sep);
      assert sep !in parts[0];
      assert multiset(Join(parts, sep)) == multiset(parts[0]) + multiset([sep]) + multiset(Join(parts[1..], sep));
    } else {
      assert sep !in parts[0];
    }
  }

  /** The bindings have exactly one line per key of the global namespace, in key
      order, each declaring that key from the namespace object. */
  lemma BindingsOnePerKey(keys: seq<string>)
    requires |keys| >= 1
    requires forall i :: 0 <= i < |keys| ==> '\n' !in keys[i]
    ensures Split(Bindings(keys), '\n') == Declarations(keys)
    ensures forall i :: 0 <= i < |keys| ==> Split(Bindings(keys), '\n')[i] == Declaration(keys[i])
    ensures multiset(Bindings(keys))['\n'] == |keys| - 1
  {
    SplitJoin(Declarations(keys), '\n');
    JoinSeparators(Declarations(keys), '\n');
  }
}
