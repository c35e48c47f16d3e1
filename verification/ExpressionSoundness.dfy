/** The expression validator and the evaluator, on arbitrary heap graphs of raw JavaScript values.

    An expression that the validator has no diagnostic for is evaluated in finitely many steps and never
    fails for its shape: what can still fail are the values it is given and the callbacks it runs. */
module ExpressionSoundness {
  import opened Options

  type Ref = nat

  /** A raw value; `Other` is a function, a symbol or a bigint. */
  datatype Raw = Undefined | Null | Bool(b: bool) | Num(finite: bool, n: real) | Str(s: string) | Other | At(ref: Ref)

  /** A record has its own enumerable fields in order; an array slot is `None` where it has a hole. */
  datatype Node = Record(fields: seq<(string, Raw)>) | Array(slots: seq<Option<Raw>>)

  type Heap = map<Ref, Node>

  datatype Code = EX001 | EX002 | EX003 | EX006

  datatype Step = Key(name: string) | Index(index: nat)

  datatype Diagnostic = Diagnostic(code: Code, path: seq<Step>)

  function Field(fields: seq<(string, Raw)>, name: string): Option<Raw> {
    if fields == [] then None
    else if fields[0].0 == name then Some(fields[0].1) else Field(fields[1..], name)
  }

  function FieldOr(fields: seq<(string, Raw)>, name: string): Raw {
    var f := Field(fields, name); if f.Some? then f.value else Undefined
  }

  /** `isRecord` */
  predicate IsRecord(h: Heap, v: Raw) {
    v.At? && v.ref in h && h[v.ref].Record?
  }

  predicate IsArray(h: Heap, v: Raw) {
    v.At? && v.ref in h && h[v.ref].Array?
  }

  function FieldsOf(h: Heap, v: Raw): seq<(string, Raw)>
    requires IsRecord(h, v)
  {
    h[v.ref].fields
  }

  function SlotsOf(h: Heap, v: Raw): seq<Option<Raw>>
    requires IsArray(h, v)
  {
    h[v.ref].slots
  }

  predicate IsPrimitive(v: Raw) {
    v.Null? || v.Str? || v.Bool? || (v.Num? && v.finite)
  }

  // ---------------------------------------------------------------- operators

  /** `expressionOperatorSpec`: the arities of an operator, or `None` for an unknown name. */
  function Arity(fn: string): Option<set<nat>> {
    if fn == "lift" then Some({2, 3, 4}) else if fn == "access" then Some({2}) else None
  }

  /** `expressionCallbackLayout`: the index of the callback source, which is also its parameter count. */
  function CallbackArg(fn: string, count: nat): Option<nat> {
    if fn == "lift" && count in {2, 3, 4} then Some(count - 1) else None
  }

  /** A value at run time; `Foreign` is anything that JSON has no counterpart for. */
  datatype Val =
    | VUndefined | VNull | VBool(b: bool) | VNum(finite: bool, n: real) | VStr(s: string)
    | VArray(items: seq<Val>) | VObject(fields: seq<(string, Val)>) | VForeign

  datatype CallbackResult = Returned(value: Val) | Promised | Threw

  /** What lies outside: the callback source check, loading and running callbacks, the adapter. */
  datatype Outside = Outside(
    issue: (string, nat) -> bool,
    loads: string -> bool,
    run: (string, seq<Val>) -> CallbackResult,
    resolveRef: seq<string> -> Val,
    format: Val -> string)

  // ---------------------------------------------------------------- the validator's diagnostics

  function UnknownFields(fields: seq<(string, Raw)>, allowed: seq<string>, path: seq<Step>): seq<Diagnostic> {
    if fields == [] then []
    else (if fields[0].0 in allowed then [] else [Diagnostic(EX002, path + [Key(fields[0].0)])])
         + UnknownFields(fields[1..], allowed, path)
  }

  function PathSegments(slots: seq<Option<Raw>>, from: nat, path: seq<Step>): seq<Diagnostic>
    requires from <= |slots|
    decreases |slots| - from
  {
    if from == |slots| then []
    else
      (match slots[from]
       case None => [Diagnostic(EX002, path + [Index(from)])]
       case Some(v) => if v.Str? then [] else [Diagnostic(EX006, path + [Index(from)])])
      + PathSegments(slots, from + 1, path)
  }

  function RefPath(h: Heap, v: Raw, path: seq<Step>): seq<Diagnostic> {
    if !IsArray(h, v) || SlotsOf(h, v) == [] then [Diagnostic(EX006, path)] else PathSegments(SlotsOf(h, v), 0, path)
  }

  /** `validateExpr`, given the records it is inside of. */
  function Expr(h: Heap, o: Outside, v: Raw, path: seq<Step>, seen: set<Ref>): seq<Diagnostic>
    decreases h.Keys - seen, 0, 0
  {
    if !IsRecord(h, v) || !FieldOr(FieldsOf(h, v), "kind").Str? then [Diagnostic(EX002, path)]
    else if v.ref in seen then [Diagnostic(EX002, path)]
    else
      Kind(h, o, FieldsOf(h, v), FieldOr(FieldsOf(h, v), "kind").s, path, seen + {v.ref})
  }

  /** The cases of `validateExpr`, once inside the record. */
  function Kind(h: Heap, o: Outside, fields: seq<(string, Raw)>, kind: string, path: seq<Step>,
                seen: set<Ref>): seq<Diagnostic>
    decreases h.Keys - seen, 4, 0
  {
    match KindOf(kind)
    case Literal => LiteralKind(fields, path)
    case Reference =>
      UnknownFields(fields, ["kind", "path"], path) + RefPath(h, FieldOr(fields, "path"), path + [Key("path")])
    case Sequence =>
      UnknownFields(fields, ["kind", "items"], path)
      + ItemsOf(h, o, FieldOr(fields, "items"), path + [Key("items")], seen)
    case Mapping =>
      UnknownFields(fields, ["kind", "fields"], path)
      + InnerFields(h, o, FieldOr(fields, "fields"), path + [Key("fields")], seen)
    case Template => TemplateKind(h, o, fields, path, seen)
    case Invocation => UnknownFields(fields, ["kind", "fn", "args"], path) + Call(h, o, fields, path, seen)
    case Unknown => [Diagnostic(EX002, path + [Key("kind")])]
  }

  datatype KindName = Literal | Reference | Sequence | Mapping | Template | Invocation | Unknown

  function KindOf(kind: string): KindName {
    if kind == "literal" then Literal
    else if kind == "ref" then Reference
    else if kind == "array" then Sequence
    else if kind == "object" then Mapping
    else if kind == "template" then Template
    else if kind == "call" then Invocation
    else Unknown
  }

  function LiteralKind(fields: seq<(string, Raw)>, path: seq<Step>): seq<Diagnostic> {
    UnknownFields(fields, ["kind", "value"], path)
    + if Field(fields, "value").Some? && IsPrimitive(FieldOr(fields, "value")) then []
      else [Diagnostic(EX002, path + [Key("value")])]
  }

  function ItemsOf(h: Heap, o: Outside, items: Raw, path: seq<Step>, seen: set<Ref>): seq<Diagnostic>
    decreases h.Keys - seen, 2, 0
  {
    if IsArray(h, items) then Items(h, o, SlotsOf(h, items), 0, path, seen) else [Diagnostic(EX002, path)]
  }

  function InnerFields(h: Heap, o: Outside, inner: Raw, path: seq<Step>, seen: set<Ref>): seq<Diagnostic>
    decreases h.Keys - seen, 2, 0
  {
    if IsRecord(h, inner) then Fields(h, o, FieldsOf(h, inner), 0, path, seen) else [Diagnostic(EX002, path)]
  }

  function TemplateKind(h: Heap, o: Outside, fields: seq<(string, Raw)>, path: seq<Step>,
                        seen: set<Ref>): seq<Diagnostic>
    decreases h.Keys - seen, 3, 0
  {
    var parts := FieldOr(fields, "parts");
    if !IsArray(h, parts) then [Diagnostic(EX002, path + [Key("parts")])]
    else UnknownFields(fields, ["kind", "parts"], path)
         + Parts(h, o, SlotsOf(h, parts), 0, path + [Key("parts")], seen)
  }

  /** `validateExprArray` */
  function Items(h: Heap, o: Outside, slots: seq<Option<Raw>>, from: nat, path: seq<Step>,
                 seen: set<Ref>): seq<Diagnostic>
    requires from <= |slots|
    decreases h.Keys - seen, 1, |slots| - from
  {
    if from == |slots| then []
    else
      (if slots[from].None? then [Diagnostic(EX002, path + [Index(from)])]
       else Expr(h, o, slots[from].value, path + [Index(from)], seen))
      + Items(h, o, slots, from + 1, path, seen)
  }

  /** `validateExprFields` */
  function Fields(h: Heap, o: Outside, fields: seq<(string, Raw)>, from: nat, path: seq<Step>,
                  seen: set<Ref>): seq<Diagnostic>
    requires from <= |fields|
    decreases h.Keys - seen, 1, |fields| - from
  {
    if from == |fields| then []
    else Expr(h, o, fields[from].1, path + [Key(fields[from].0)], seen) + Fields(h, o, fields, from + 1, path, seen)
  }

  /** One part of `validateTemplate`. */
  function Part(h: Heap, o: Outside, part: Raw, path: seq<Step>, seen: set<Ref>): seq<Diagnostic>
    decreases h.Keys - seen, 1, 0
  {
    if !IsRecord(h, part) then [Diagnostic(EX002, path)]
    else
      var fields := FieldsOf(h, part);
      var kind := FieldOr(fields, "kind");
      if kind == Str("expr") then
        UnknownFields(fields, ["kind", "expr"], path) + Expr(h, o, FieldOr(fields, "expr"), path + [Key("expr")], seen)
      else if kind == Str("text") then
        UnknownFields(fields, ["kind", "value"], path)
        + if FieldOr(fields, "value").Str? then [] else [Diagnostic(EX002, path + [Key("value")])]
      else [Diagnostic(EX002, path + [Key("kind")])]
  }

  function Parts(h: Heap, o: Outside, slots: seq<Option<Raw>>, from: nat, path: seq<Step>,
                 seen: set<Ref>): seq<Diagnostic>
    requires from <= |slots|
    decreases h.Keys - seen, 2, |slots| - from
  {
    if from == |slots| then []
    else
      (if slots[from].None? then [Diagnostic(EX002, path + [Index(from)])]
       else Part(h, o, slots[from].value, path + [Index(from)], seen))
      + Parts(h, o, slots, from + 1, path, seen)
  }

  /** A literal with a string value. */
  predicate IsSource(h: Heap, v: Raw) {
    IsRecord(h, v) && FieldOr(FieldsOf(h, v), "kind") == Str("literal") && FieldOr(FieldsOf(h, v), "value").Str?
  }

  function Source(h: Heap, v: Raw): string
    requires IsSource(h, v)
  {
    FieldOr(FieldsOf(h, v), "value").s
  }

  /** One argument of `validateCall`; the callback source is also checked for its parameter count. */
  function Arg(h: Heap, o: Outside, slot: Option<Raw>, index: nat, callback: Option<nat>, path: seq<Step>,
               seen: set<Ref>): seq<Diagnostic>
    decreases h.Keys - seen, 1, 0
  {
    if slot.None? then [Diagnostic(EX002, path)]
    else if callback != Some(index) then Expr(h, o, slot.value, path, seen)
    else if !IsSource(h, slot.value) then [Diagnostic(EX002, path)]
    else (if o.issue(Source(h, slot.value), index) then [Diagnostic(EX002, path)] else [])
         + Expr(h, o, slot.value, path, seen)
  }

  function Args(h: Heap, o: Outside, slots: seq<Option<Raw>>, from: nat, callback: Option<nat>, path: seq<Step>,
                seen: set<Ref>): seq<Diagnostic>
    requires from <= |slots|
    decreases h.Keys - seen, 2, |slots| - from
  {
    if from == |slots| then []
    else Arg(h, o, slots[from], from, callback, path + [Index(from)], seen)
         + Args(h, o, slots, from + 1, callback, path, seen)
  }

  function ArityIssue(fn: string, count: nat, path: seq<Step>): seq<Diagnostic>
    requires Arity(fn).Some?
  {
    if count in Arity(fn).value then [] else [Diagnostic(EX003, path)]
  }

  /** `validateCall` */
  function Call(h: Heap, o: Outside, fields: seq<(string, Raw)>, path: seq<Step>, seen: set<Ref>): seq<Diagnostic>
    decreases h.Keys - seen, 3, 0
  {
    var fn := FieldOr(fields, "fn");
    var args := FieldOr(fields, "args");
    if !fn.Str? then [Diagnostic(EX002, path + [Key("fn")])]
    else if Arity(fn.s).None? then [Diagnostic(EX001, path + [Key("fn")])]
    else if !IsArray(h, args) then [Diagnostic(EX002, path + [Key("args")])]
    else
      var slots := SlotsOf(h, args);
      ArityIssue(fn.s, |slots|, path + [Key("args")])
      + Args(h, o, slots, 0, CallbackArg(fn.s, |slots|), path + [Key("args")], seen)
  }

  // ---------------------------------------------------------------- the validator, pushing as it goes

  lemma Regrouped<T>(a: seq<T>, b: seq<T>, c: seq<T>)
    ensures (a + b) + c == a + (b + c)
  {
  }

  /** One slot's diagnostics before those of the rest. */
  lemma ItemsStep(h: Heap, o: Outside, slots: seq<Option<Raw>>, i: nat, path: seq<Step>, seen: set<Ref>,
                  before: seq<Diagnostic>, after: seq<Diagnostic>)
    requires i < |slots|
    requires after == before + (if slots[i].None? then [Diagnostic(EX002, path + [Index(i)])]
                                else Expr(h, o, slots[i].value, path + [Index(i)], seen))
    ensures after + Items(h, o, slots, i + 1, path, seen) == before + Items(h, o, slots, i, path, seen)
  {
    var head := if slots[i].None? then [Diagnostic(EX002, path + [Index(i)])]
                else Expr(h, o, slots[i].value, path + [Index(i)], seen);
    assert Items(h, o, slots, i, path, seen) == head + Items(h, o, slots, i + 1, path, seen);
    Regrouped(before, head, Items(h, o, slots, i + 1, path, seen));
  }

  lemma PartsStep(h: Heap, o: Outside, slots: seq<Option<Raw>>, i: nat, path: seq<Step>, seen: set<Ref>,
                  before: seq<Diagnostic>, after: seq<Diagnostic>)
    requires i < |slots|
    requires after == before + (if slots[i].None? then [Diagnostic(EX002, path + [Index(i)])]
                                else Part(h, o, slots[i].value, path + [Index(i)], seen))
    ensures after + Parts(h, o, slots, i + 1, path, seen) == before + Parts(h, o, slots, i, path, seen)
  {
    var head := if slots[i].None? then [Diagnostic(EX002, path + [Index(i)])]
                else Part(h, o, slots[i].value, path + [Index(i)], seen);
    assert Parts(h, o, slots, i, path, seen) == head + Parts(h, o, slots, i + 1, path, seen);
    Regrouped(before, head, Parts(h, o, slots, i + 1, path, seen));
  }

  class Validator {
    var diagnostics: seq<Diagnostic>
    var seen: set<Ref>
    const h: Heap
    const o: Outside

    constructor (h: Heap, o: Outside)
      ensures diagnostics == [] && seen == {} && this.h == h && this.o == o
    {
      diagnostics, seen, this.h, this.o := [], {}, h, o;
    }

    method Push(code: Code, path: seq<Step>)
      modifies this`diagnostics
      ensures diagnostics == old(diagnostics) + [Diagnostic(code, path)]
    {
      diagnostics := diagnostics + [Diagnostic(code, path)];
    }

    method ValidateKnownFields(fields: seq<(string, Raw)>, allowed: seq<string>, path: seq<Step>)
      modifies this`diagnostics
      ensures diagnostics == old(diagnostics) + UnknownFields(fields, allowed, path)
    {
      var i := 0;
      while i < |fields|
        invariant 0 <= i <= |fields|
        invariant diagnostics + UnknownFields(fields[i..], allowed, path)
                  == old(diagnostics) + UnknownFields(fields, allowed, path)
      {
        assert fields[i..][1..] == fields[i + 1..];
        if fields[i].0 !in allowed { Push(EX002, path + [Key(fields[i].0)]); }
        i := i + 1;
      }
    }

    method ValidatePath(v: Raw, path: seq<Step>)
      modifies this`diagnostics
      ensures diagnostics == old(diagnostics) + RefPath(h, v, path)
    {
      if !IsArray(h, v) || SlotsOf(h, v) == [] {
        Push(EX006, path);
        return;
      }
      var slots, i := SlotsOf(h, v), 0;
      while i < |slots|
        invariant 0 <= i <= |slots|
        invariant diagnostics + PathSegments(slots, i, path) == old(diagnostics) + PathSegments(slots, 0, path)
      {
        if slots[i].None? {
          Push(EX002, path + [Index(i)]);
        } else if !slots[i].value.Str? {
          Push(EX006, path + [Index(i)]);
        }
        i := i + 1;
      }
    }

    method ValidateExpr(v: Raw, path: seq<Step>)
      modifies this
      ensures seen == old(seen) && diagnostics == old(diagnostics) + Expr(h, o, v, path, old(seen))
      decreases h.Keys - seen, 0
    {
      if !IsRecord(h, v) || !FieldOr(FieldsOf(h, v), "kind").Str? || v.ref in seen {
        Push(EX002, path);
        return;
      }
      seen := seen + {v.ref};
      ValidateKind(FieldsOf(h, v), FieldOr(FieldsOf(h, v), "kind").s, path);
      seen := seen - {v.ref};
    }

    method ValidateKind(fields: seq<(string, Raw)>, kind: string, path: seq<Step>)
      modifies this
      ensures seen == old(seen) && diagnostics == old(diagnostics) + Kind(h, o, fields, kind, path, old(seen))
      decreases h.Keys - seen, 4
    {
      match KindOf(kind) {
        case Literal => ValidateLiteral(fields, path);
        case Reference =>
          ValidateKnownFields(fields, ["kind", "path"], path);
          ValidatePath(FieldOr(fields, "path"), path + [Key("path")]);
        case Sequence =>
          ValidateKnownFields(fields, ["kind", "items"], path);
          ValidateExprArray(FieldOr(fields, "items"), path + [Key("items")]);
        case Mapping =>
          ValidateKnownFields(fields, ["kind", "fields"], path);
          ValidateExprFields(FieldOr(fields, "fields"), path + [Key("fields")]);
        case Template => ValidateTemplate(fields, path);
        case Invocation =>
          ValidateKnownFields(fields, ["kind", "fn", "args"], path);
          ValidateCall(fields, path);
        case Unknown => Push(EX002, path + [Key("kind")]);
      }
    }

    method ValidateLiteral(fields: seq<(string, Raw)>, path: seq<Step>)
      modifies this`diagnostics
      ensures diagnostics == old(diagnostics) + LiteralKind(fields, path)
    {
      ValidateKnownFields(fields, ["kind", "value"], path);
      if Field(fields, "value").None? || !IsPrimitive(FieldOr(fields, "value")) {
        Push(EX002, path + [Key("value")]);
      }
    }

    method ValidateExprArray(items: Raw, path: seq<Step>)
      modifies this
      ensures seen == old(seen)
      ensures diagnostics == old(diagnostics) + ItemsOf(h, o, items, path, old(seen))
      decreases h.Keys - seen, 1
    {
      if !IsArray(h, items) {
        Push(EX002, path);
        return;
      }
      var slots, i := SlotsOf(h, items), 0;
      while i < |slots|
        invariant 0 <= i <= |slots| && seen == old(seen)
        invariant diagnostics + Items(h, o, slots, i, path, seen) == old(diagnostics) + Items(h, o, slots, 0, path, seen)
      {
        ghost var before := diagnostics;
        if slots[i].None? {
          Push(EX002, path + [Index(i)]);
        } else {
          ValidateExpr(slots[i].value, path + [Index(i)]);
        }
        ItemsStep(h, o, slots, i, path, seen, before, diagnostics);
        i := i + 1;
      }
    }

    method ValidateExprFields(inner: Raw, path: seq<Step>)
      modifies this
      ensures seen == old(seen)
      ensures diagnostics == old(diagnostics) + InnerFields(h, o, inner, path, old(seen))
      decreases h.Keys - seen, 1
    {
      if !IsRecord(h, inner) {
        Push(EX002, path);
        return;
      }
      var fields, i := FieldsOf(h, inner), 0;
      while i < |fields|
        invariant 0 <= i <= |fields| && seen == old(seen)
        invariant diagnostics + Fields(h, o, fields, i, path, seen) == old(diagnostics) + Fields(h, o, fields, 0, path, seen)
      {
        ValidateExpr(fields[i].1, path + [Key(fields[i].0)]);
        i := i + 1;
      }
    }

    method ValidateTemplate(fields: seq<(string, Raw)>, path: seq<Step>)
      modifies this
      ensures seen == old(seen) && diagnostics == old(diagnostics) + TemplateKind(h, o, fields, path, old(seen))
      decreases h.Keys - seen, 3
    {
      var parts := FieldOr(fields, "parts");
      if !IsArray(h, parts) {
        Push(EX002, path + [Key("parts")]);
        return;
      }
      ValidateKnownFields(fields, ["kind", "parts"], path);
      ValidateParts(SlotsOf(h, parts), path + [Key("parts")]);
    }

    method ValidateParts(slots: seq<Option<Raw>>, path: seq<Step>)
      modifies this
      ensures seen == old(seen) && diagnostics == old(diagnostics) + Parts(h, o, slots, 0, path, old(seen))
      decreases h.Keys - seen, 2
    {
      var i := 0;
      while i < |slots|
        invariant 0 <= i <= |slots| && seen == old(seen)
        invariant diagnostics + Parts(h, o, slots, i, path, seen) == old(diagnostics) + Parts(h, o, slots, 0, path, seen)
      {
        ghost var before := diagnostics;
        if slots[i].None? {
          Push(EX002, path + [Index(i)]);
        } else {
          ValidatePart(slots[i].value, path + [Index(i)]);
        }
        PartsStep(h, o, slots, i, path, seen, before, diagnostics);
        i := i + 1;
      }
    }

    method ValidatePart(part: Raw, path: seq<Step>)
      modifies this
      ensures seen == old(seen) && diagnostics == old(diagnostics) + Part(h, o, part, path, old(seen))
      decreases h.Keys - seen, 1
    {
      if !IsRecord(h, part) {
        Push(EX002, path);
        return;
      }
      var fields := FieldsOf(h, part);
      if FieldOr(fields, "kind") == Str("expr") {
        ValidateKnownFields(fields, ["kind", "expr"], path);
        ValidateExpr(FieldOr(fields, "expr"), path + [Key("expr")]);
      } else if FieldOr(fields, "kind") == Str("text") {
        ValidateKnownFields(fields, ["kind", "value"], path);
        if !FieldOr(fields, "value").Str? { Push(EX002, path + [Key("value")]); }
      } else {
        Push(EX002, path + [Key("kind")]);
      }
    }

    method ValidateCall(fields: seq<(string, Raw)>, path: seq<Step>)
      modifies this
      ensures seen == old(seen) && diagnostics == old(diagnostics) + Call(h, o, fields, path, old(seen))
      decreases h.Keys - seen, 3
    {
      var fn, args := FieldOr(fields, "fn"), FieldOr(fields, "args");
      if !fn.Str? {
        Push(EX002, path + [Key("fn")]);
        return;
      }
      if Arity(fn.s).None? {
        Push(EX001, path + [Key("fn")]);
        return;
      }
      if !IsArray(h, args) {
        Push(EX002, path + [Key("args")]);
        return;
      }
      var slots := SlotsOf(h, args);
      if |slots| !in Arity(fn.s).value { Push(EX003, path + [Key("args")]); }
      ValidateArgs(slots, CallbackArg(fn.s, |slots|), path + [Key("args")]);
    }

    method ValidateArgs(slots: seq<Option<Raw>>, callback: Option<nat>, path: seq<Step>)
      modifies this
      ensures seen == old(seen) && diagnostics == old(diagnostics) + Args(h, o, slots, 0, callback, path, old(seen))
      decreases h.Keys - seen, 2
    {
      var i := 0;
      while i < |slots|
        invariant 0 <= i <= |slots| && seen == old(seen)
        invariant diagnostics + Args(h, o, slots, i, callback, path, seen)
                  == old(diagnostics) + Args(h, o, slots, 0, callback, path, seen)
      {
        ValidateArg(slots[i], i, callback, path + [Index(i)]);
        i := i + 1;
      }
    }

    method ValidateArg(slot: Option<Raw>, index: nat, callback: Option<nat>, path: seq<Step>)
      modifies this
      ensures seen == old(seen) && diagnostics == old(diagnostics) + Arg(h, o, slot, index, callback, path, old(seen))
      decreases h.Keys - seen, 1
    {
      if slot.None? {
        Push(EX002, path);
        return;
      }
      if callback != Some(index) {
        ValidateExpr(slot.value, path);
        return;
      }
      if !IsSource(h, slot.value) {
        Push(EX002, path);
        return;
      }
      ValidateSource(slot.value, index, path);
      ghost var issues := diagnostics[|old(diagnostics)|..];
      assert diagnostics == old(diagnostics) + issues;
      ValidateExpr(slot.value, path);
      assert old(diagnostics) + issues + Expr(h, o, slot.value, path, seen)
          == old(diagnostics) + (issues + Expr(h, o, slot.value, path, seen));
    }

    method ValidateSource(source: Raw, index: nat, path: seq<Step>)
      requires IsSource(h, source)
      modifies this
      ensures seen == old(seen)
      ensures diagnostics == old(diagnostics) + if o.issue(Source(h, source), index) then [Diagnostic(EX002, path)] else []
    {
      if o.issue(Source(h, source), index) { Push(EX002, path); }
    }
  }

  /** `validateExprIR` */
  method ValidateExprIR(h: Heap, o: Outside, v: Raw) returns (diagnostics: seq<Diagnostic>)
    ensures diagnostics == Expr(h, o, v, [], {})
  {
    var validator := new Validator(h, o);
    validator.ValidateExpr(v, []);
    diagnostics := validator.diagnostics;
  }

  // ---------------------------------------------------------------- the evaluator

  /** `NotAnExpression` stands for whatever happens on a graph that is no expression, `Endless` for an
      evaluation that exceeds its number of nested steps. */
  datatype Error =
    | UnsupportedOperator | WrongArity | NoCallbackSource | CallbackIssue | NotAnExpression | Endless
    | MissingValue | NotJson | CallbackNotLoaded | CallbackFailed

  datatype Out = Got(value: Val) | Missing | Fail(error: Error)

  datatype Outs = All(values: seq<Val>) | Broken(error: Error)

  datatype Entries = Gathered(fields: seq<(string, Val)>) | Spoilt(error: Error)

  predicate JsonVal(v: Val) {
    match v
    case VNull | VBool(_) | VStr(_) => true
    case VNum(finite, _) => finite
    case VArray(items) => forall i | i in items :: JsonVal(i)
    case VObject(fields) => forall f | f in fields :: JsonVal(f.1)
    case VUndefined | VForeign => false
  }

  /** `assertCallbackInputCompatible`: undefined is let through at every depth. */
  predicate CallbackInput(v: Val) {
    match v
    case VUndefined | VNull | VBool(_) | VStr(_) => true
    case VNum(finite, _) => finite
    case VArray(items) => forall i | i in items :: CallbackInput(i)
    case VObject(fields) => forall f | f in fields :: CallbackInput(f.1)
    case VForeign => false
  }

  function Normalized(v: Val): Out {
    if v.VUndefined? then Missing else Got(v)
  }

  predicate Digits(s: string) {
    forall i | 0 <= i < |s| :: '0' <= s[i] <= '9'
  }

  function Decimal(s: string): nat
    requires Digits(s)
    decreases |s|
  {
    if s == [] then 0
    else
      10 * Decimal(s[..|s| - 1]) + (s[|s| - 1] as int - '0' as int)
  }

  /** The index a key denotes if it is the canonical spelling of one. */
  function KeyIndex(key: Val): Option<nat> {
    match key
    case VNum(finite, n) => if finite && n >= 0.0 && n.Floor as real == n then Some(n.Floor) else None
    case VStr(s) => if s != [] && Digits(s) && (s[0] != '0' || |s| == 1) then Some(Decimal(s)) else None
    case _ => None
  }

  /** `getValue` */
  function GetValue(target: Out, key: Val): (out: Out)
    requires !target.Fail?
    ensures !out.Fail?
  {
    if target.Missing? then Missing
    else
      var t := target.value;
      if (t.VArray? || t.VStr?) && (key.VNum? || key.VStr?) then
        var index := KeyIndex(key);
        if index.None? then Missing
        else if t.VArray? then if index.value < |t.items| then Normalized(t.items[index.value]) else Missing
        else if index.value < |t.s| then Got(VStr([t.s[index.value]])) else Missing
      else if t.VObject? && key.VStr? then
        GetOwn(t.fields, key.s)
      else Missing
  }

  function GetOwn(fields: seq<(string, Val)>, name: string): (out: Out)
    ensures !out.Fail?
  {
    if fields == [] then Missing
    else if fields[0].0 == name then Normalized(fields[0].1) else GetOwn(fields[1..], name)
  }

  function LiteralValue(v: Raw): Val {
    match v
    case Undefined => VUndefined
    case Null => VNull
    case Bool(b) => VBool(b)
    case Num(finite, n) => VNum(finite, n)
    case Str(s) => VStr(s)
    case Other | At(_) => VForeign
  }

  predicate StringSlots(slots: seq<Option<Raw>>) {
    forall s | s in slots :: s.Some? && s.value.Str?
  }

  function Strings(slots: seq<Option<Raw>>): seq<string>
    requires StringSlots(slots)
  {
    seq(|slots|, i requires 0 <= i < |slots| => assert slots[i] in slots; slots[i].value.s)
  }

  function ResolveRef(h: Heap, o: Outside, path: Raw): Out {
    if IsArray(h, path) && StringSlots(SlotsOf(h, path))
    then Normalized(o.resolveRef(Strings(SlotsOf(h, path)))) else Fail(NotAnExpression)
  }

  function Present(out: Out): Out {
    if out.Missing? then Fail(MissingValue) else out
  }

  function Defined(out: Out): Out {
    if out.Missing? then Got(VUndefined) else out
  }

  /** `evaluate`, with at most `depth` expressions inside of each other. */
  function Eval(h: Heap, o: Outside, v: Raw, depth: nat): Out
    decreases depth, 0, 0
  {
    if !IsRecord(h, v) || !FieldOr(FieldsOf(h, v), "kind").Str? then Fail(NotAnExpression)
    else if depth == 0 then Fail(Endless)
    else
      EvalKind(h, o, FieldsOf(h, v), KindOf(FieldOr(FieldsOf(h, v), "kind").s), depth - 1)
  }

  function EvalKind(h: Heap, o: Outside, fields: seq<(string, Raw)>, kind: KindName, depth: nat): Out
    decreases depth, 5, 0
  {
    match kind
    case Literal => Got(LiteralValue(FieldOr(fields, "value")))
    case Reference => ResolveRef(h, o, FieldOr(fields, "path"))
    case Sequence => EvalArray(h, o, FieldOr(fields, "items"), depth)
    case Mapping => EvalObject(h, o, FieldOr(fields, "fields"), depth)
    case Template => RenderTemplate(h, o, FieldOr(fields, "parts"), depth)
    case Invocation => EvalCall(h, o, FieldOr(fields, "fn"), FieldOr(fields, "args"), depth)
    case Unknown => Fail(NotAnExpression)
  }

  function EvalArray(h: Heap, o: Outside, items: Raw, depth: nat): Out
    decreases depth, 3, 0
  {
    if !IsArray(h, items) then Fail(NotAnExpression)
    else
      var outs := EvalItems(h, o, SlotsOf(h, items), depth);
      if outs.All? then Got(VArray(outs.values)) else Fail(outs.error)
  }

  function EvalItems(h: Heap, o: Outside, slots: seq<Option<Raw>>, depth: nat): Outs
    decreases depth, 2, |slots|
  {
    if slots == [] then All([])
    else if slots[0].None? then Broken(NotAnExpression)
    else
      var first := Present(Eval(h, o, slots[0].value, depth));
      if first.Fail? then Broken(first.error)
      else
        var rest := EvalItems(h, o, slots[1..], depth);
        if rest.All? then All([first.value] + rest.values) else rest
  }

  function EvalObject(h: Heap, o: Outside, inner: Raw, depth: nat): Out
    decreases depth, 3, 0
  {
    if !IsRecord(h, inner) then Fail(NotAnExpression)
    else
      var entries := EvalFields(h, o, FieldsOf(h, inner), depth);
      if entries.Gathered? then Got(VObject(entries.fields)) else Fail(entries.error)
  }

  /** Fields whose value is missing are left out. */
  function EvalFields(h: Heap, o: Outside, fields: seq<(string, Raw)>, depth: nat): Entries
    decreases depth, 2, |fields|
  {
    if fields == [] then Gathered([])
    else
      var first := Eval(h, o, fields[0].1, depth);
      if first.Fail? then Spoilt(first.error)
      else
        var rest := EvalFields(h, o, fields[1..], depth);
        if rest.Spoilt? then rest
        else if first.Missing? then rest
        else Gathered([(fields[0].0, first.value)] + rest.fields)
  }

  function RenderTemplate(h: Heap, o: Outside, parts: Raw, depth: nat): Out
    decreases depth, 3, 0
  {
    if IsArray(h, parts) then RenderParts(h, o, SlotsOf(h, parts), depth) else Fail(NotAnExpression)
  }

  function RenderParts(h: Heap, o: Outside, slots: seq<Option<Raw>>, depth: nat): Out
    decreases depth, 2, |slots|
  {
    if slots == [] then Got(VStr(""))
    else if slots[0].None? then Fail(NotAnExpression)
    else
      var first := RenderPart(h, o, slots[0].value, depth);
      if first.Fail? then first
      else
        var rest := RenderParts(h, o, slots[1..], depth);
        if rest.Fail? || !rest.Got? || !rest.value.VStr? || !first.Got? || !first.value.VStr? then rest
        else Got(VStr(first.value.s + rest.value.s))
  }

  function RenderPart(h: Heap, o: Outside, part: Raw, depth: nat): Out
    decreases depth, 1, 0
  {
    if !IsRecord(h, part) then Fail(NotAnExpression)
    else
      var fields := FieldsOf(h, part);
      if FieldOr(fields, "kind") == Str("text") then
        if FieldOr(fields, "value").Str? then Got(VStr(FieldOr(fields, "value").s)) else Fail(NotAnExpression)
      else
        var value := Present(Eval(h, o, FieldOr(fields, "expr"), depth));
        if value.Fail? then value
        else if !JsonVal(value.value) then Fail(NotJson)
        else Got(VStr(o.format(value.value)))
  }

  function EvalCall(h: Heap, o: Outside, fn: Raw, args: Raw, depth: nat): Out
    decreases depth, 4, 0
  {
    if !fn.Str? || !IsArray(h, args) then Fail(NotAnExpression)
    else
      var slots := SlotsOf(h, args);
      if Arity(fn.s).None? then Fail(UnsupportedOperator)
      else if |slots| !in Arity(fn.s).value then Fail(WrongArity)
      else
        var callback := CallbackArg(fn.s, |slots|);
        if callback.Some? then EvalCallback(h, o, slots, callback.value, depth)
        else if fn.s != "access" || |slots| != 2 then Fail(UnsupportedOperator)
        else EvalAccess(h, o, slots[0], slots[1], depth)
  }

  function EvalAccess(h: Heap, o: Outside, target: Option<Raw>, key: Option<Raw>, depth: nat): Out
    decreases depth, 3, 0
  {
    if target.None? || key.None? then Fail(NotAnExpression)
    else
      var t := Eval(h, o, target.value, depth);
      if t.Fail? then t
      else
        var k := Present(Eval(h, o, key.value, depth));
        if k.Fail? then k else GetValue(t, k.value)
  }

  function EvalCallback(h: Heap, o: Outside, slots: seq<Option<Raw>>, callback: nat, depth: nat): Out
    decreases depth, 3, 0
  {
    if callback >= |slots| || slots[callback].None? || !IsSource(h, slots[callback].value) then Fail(NoCallbackSource)
    else
      var source := Source(h, slots[callback].value);
      if o.issue(source, callback) then Fail(CallbackIssue)
      else if !o.loads(source) then Fail(CallbackNotLoaded)
      else
        var inputs := EvalInputs(h, o, slots[..callback], depth);
        if inputs.Broken? then Fail(inputs.error)
        else
          match o.run(source, inputs.values)
          case Threw | Promised => Fail(CallbackFailed)
          case Returned(value) => if JsonVal(value) then Got(value) else Fail(NotJson)
  }

  function EvalInputs(h: Heap, o: Outside, slots: seq<Option<Raw>>, depth: nat): Outs
    decreases depth, 2, |slots|
  {
    if slots == [] then All([])
    else if slots[0].None? then Broken(NotAnExpression)
    else
      var first := EvalInput(h, o, slots[0].value, depth);
      if first.Fail? then Broken(first.error)
      else if !first.Got? || !CallbackInput(first.value) then Broken(NotJson)
      else
        var rest := EvalInputs(h, o, slots[1..], depth);
        if rest.All? then All([first.value] + rest.values) else rest
  }

  /** `evaluateCallbackInput`: like `evaluate`, but missing values become undefined at every depth. */
  function EvalInput(h: Heap, o: Outside, v: Raw, depth: nat): Out
    decreases depth, 1, 0
  {
    if !IsRecord(h, v) || !FieldOr(FieldsOf(h, v), "kind").Str? then Fail(NotAnExpression)
    else if depth == 0 then Fail(Endless)
    else
      InputKind(h, o, FieldsOf(h, v), KindOf(FieldOr(FieldsOf(h, v), "kind").s), depth - 1)
  }

  function InputKind(h: Heap, o: Outside, fields: seq<(string, Raw)>, kind: KindName, depth: nat): Out
    decreases depth, 6, 0
  {
    match kind
    case Literal => Got(LiteralValue(FieldOr(fields, "value")))
    case Reference => Defined(ResolveRef(h, o, FieldOr(fields, "path")))
    case Sequence => InputArray(h, o, FieldOr(fields, "items"), depth)
    case Mapping => InputObject(h, o, FieldOr(fields, "fields"), depth)
    case Template | Invocation => Defined(EvalKind(h, o, fields, kind, depth))
    case Unknown => Fail(NotAnExpression)
  }

  function InputArray(h: Heap, o: Outside, items: Raw, depth: nat): Out
    decreases depth, 3, 0
  {
    if !IsArray(h, items) then Fail(NotAnExpression)
    else
      var outs := InputItems(h, o, SlotsOf(h, items), depth);
      if outs.All? then Got(VArray(outs.values)) else Fail(outs.error)
  }

  function InputObject(h: Heap, o: Outside, inner: Raw, depth: nat): Out
    decreases depth, 3, 0
  {
    if !IsRecord(h, inner) then Fail(NotAnExpression)
    else
      var entries := InputFields(h, o, FieldsOf(h, inner), depth);
      if entries.Gathered? then Got(VObject(entries.fields)) else Fail(entries.error)
  }

  function InputItems(h: Heap, o: Outside, slots: seq<Option<Raw>>, depth: nat): Outs
    decreases depth, 2, |slots|
  {
    if slots == [] then All([])
    else if slots[0].None? then Broken(NotAnExpression)
    else
      var first := EvalInput(h, o, slots[0].value, depth);
      if first.Fail? then Broken(first.error)
      else
        var rest := InputItems(h, o, slots[1..], depth);
        if rest.All? && first.Got? then All([first.value] + rest.values) else rest
  }

  function InputFields(h: Heap, o: Outside, fields: seq<(string, Raw)>, depth: nat): Entries
    decreases depth, 2, |fields|
  {
    if fields == [] then Gathered([])
    else
      var first := EvalInput(h, o, fields[0].1, depth);
      if first.Fail? then Spoilt(first.error)
      else
        var rest := InputFields(h, o, fields[1..], depth);
        if rest.Spoilt? || !first.Got? then rest else Gathered([(fields[0].0, first.value)] + rest.fields)
  }

  // ---------------------------------------------------------------- what an expression evaluates to

  /** The record of an expression of the given kind, and what it holds. */
  predicate IsKind(h: Heap, v: Raw, kind: KindName) {
    IsRecord(h, v) && FieldOr(FieldsOf(h, v), "kind").Str? && KindOf(FieldOr(FieldsOf(h, v), "kind").s) == kind
  }

  function Inside(h: Heap, v: Raw, name: string): Raw
    requires IsRecord(h, v)
  {
    FieldOr(FieldsOf(h, v), name)
  }

  lemma EvalIs(h: Heap, o: Outside, v: Raw, kind: KindName, depth: nat)
    requires IsKind(h, v, kind) && depth > 0
    ensures Eval(h, o, v, depth) == EvalKind(h, o, FieldsOf(h, v), kind, depth - 1)
    ensures EvalInput(h, o, v, depth) == InputKind(h, o, FieldsOf(h, v), kind, depth - 1)
  {
  }

  /** A literal is its value. */
  lemma LiteralMeans(h: Heap, o: Outside, v: Raw, depth: nat)
    requires IsKind(h, v, Literal) && depth > 0
    ensures var x := Inside(h, v, "value");
            && (x == Null ==> Eval(h, o, v, depth) == Got(VNull))
            && (x.Bool? ==> Eval(h, o, v, depth) == Got(VBool(x.b)))
            && (x.Num? ==> Eval(h, o, v, depth) == Got(VNum(x.finite, x.n)))
            && (x.Str? ==> Eval(h, o, v, depth) == Got(VStr(x.s)))
    ensures EvalInput(h, o, v, depth) == Eval(h, o, v, depth)
  {
  }

  /** A reference is what the adapter answers for its path; undefined counts as missing. */
  lemma ReferenceMeans(h: Heap, o: Outside, v: Raw, path: seq<string>, depth: nat)
    requires IsKind(h, v, Reference) && depth > 0 && IsArray(h, Inside(h, v, "path"))
    requires var slots := SlotsOf(h, Inside(h, v, "path"));
             |slots| == |path| && forall i | 0 <= i < |path| :: slots[i] == Some(Str(path[i]))
    ensures var answer := o.resolveRef(path);
            && Eval(h, o, v, depth) == (if answer == VUndefined then Missing else Got(answer))
            && EvalInput(h, o, v, depth) == Got(answer)
  {
    var slots := SlotsOf(h, Inside(h, v, "path"));
    forall s | s in slots ensures s.Some? && s.value.Str? {
    }
    assert Strings(slots) == path;
  }

  /** The value of the i-th item, for every item. */
  predicate EachIs(h: Heap, o: Outside, slots: seq<Option<Raw>>, values: seq<Val>, depth: nat) {
    |values| == |slots|
    && forall i | 0 <= i < |slots| :: slots[i].Some? && Eval(h, o, slots[i].value, depth) == Got(values[i])
  }

  lemma {:induction false} ItemsMean(h: Heap, o: Outside, slots: seq<Option<Raw>>, values: seq<Val>, depth: nat)
    ensures EvalItems(h, o, slots, depth) == All(values) <==> EachIs(h, o, slots, values, depth)
    decreases |slots|
  {
    if slots != [] {
      if values == [] {
        assert EvalItems(h, o, slots, depth) != All([]);
      } else {
        ItemsMean(h, o, slots[1..], values[1..], depth);
        assert values == [values[0]] + values[1..];
        if EachIs(h, o, slots, values, depth) {
          assert EachIs(h, o, slots[1..], values[1..], depth);
        }
        if EachIs(h, o, slots[1..], values[1..], depth) && slots[0].Some?
           && Eval(h, o, slots[0].value, depth) == Got(values[0]) {
          forall i | 0 <= i < |slots| ensures slots[i].Some? && Eval(h, o, slots[i].value, depth) == Got(values[i]) {
            assert i > 0 ==> slots[i] == slots[1..][i - 1] && values[i] == values[1..][i - 1];
          }
        }
        ItemsHead(h, o, slots, values, depth);
      }
    }
  }

  lemma ItemsHead(h: Heap, o: Outside, slots: seq<Option<Raw>>, values: seq<Val>, depth: nat)
    requires slots != [] && values != []
    ensures EvalItems(h, o, slots, depth) == All(values)
       <==> slots[0].Some? && Eval(h, o, slots[0].value, depth) == Got(values[0])
            && EvalItems(h, o, slots[1..], depth) == All(values[1..])
  {
    assert values == [values[0]] + values[1..];
    if EvalItems(h, o, slots, depth) == All(values) {
      var rest := EvalItems(h, o, slots[1..], depth);
      assert ([values[0]] + rest.values)[1..] == rest.values;
    }
  }

  /** An array has one value for each of its items, in their order, and is one exactly if all are present. */
  lemma ArrayMeans(h: Heap, o: Outside, v: Raw, values: seq<Val>, depth: nat)
    requires IsKind(h, v, Sequence) && depth > 0 && IsArray(h, Inside(h, v, "items"))
    ensures Eval(h, o, v, depth) == Got(VArray(values))
       <==> EachIs(h, o, SlotsOf(h, Inside(h, v, "items")), values, depth - 1)
    ensures var out := Eval(h, o, v, depth); out.Fail? || (out.Got? && out.value.VArray?)
  {
    var items := Inside(h, v, "items");
    EvalIs(h, o, v, Sequence, depth);
    assert EvalKind(h, o, FieldsOf(h, v), Sequence, depth - 1) == EvalArray(h, o, items, depth - 1);
    ItemsMean(h, o, SlotsOf(h, items), values, depth - 1);
  }

  predicate Increasing(kept: seq<nat>) {
    forall i, j | 0 <= i < j < |kept| :: kept[i] < kept[j]
  }

  /** The entry is the field's own key with the value of its expression. */
  predicate IsField(h: Heap, o: Outside, fields: seq<(string, Raw)>, k: nat, entry: (string, Val), depth: nat) {
    k < |fields| && entry.0 == fields[k].0 && Eval(h, o, fields[k].1, depth) == Got(entry.1)
  }

  /** The entries are those of the fields at `kept`, in order; every other field's value is missing. */
  predicate PresentFields(h: Heap, o: Outside, fields: seq<(string, Raw)>, kept: seq<nat>, entries: seq<(string, Val)>,
                          depth: nat) {
    && |kept| == |entries|
    && Increasing(kept)
    && (forall j | 0 <= j < |kept| :: IsField(h, o, fields, kept[j], entries[j], depth))
    && (forall i: nat | i < |fields| && i !in kept :: Eval(h, o, fields[i].1, depth) == Missing)
  }

  function Shifted(kept: seq<nat>): (r: seq<nat>)
    ensures |r| == |kept| && forall j | 0 <= j < |r| :: r[j] == kept[j] + 1
  {
    seq(|kept|, j requires 0 <= j < |kept| => kept[j] + 1)
  }

  lemma IncreasingFirst(kept: seq<nat>)
    requires Increasing(kept)
    ensures Increasing(Shifted(kept)) && Increasing([0] + Shifted(kept))
  {
  }

  lemma InShifted(kept: seq<nat>, i: nat)
    ensures i in Shifted(kept) <==> i > 0 && i - 1 in kept
  {
    if i > 0 && i - 1 in kept {
      var j :| 0 <= j < |kept| && kept[j] == i - 1;
      assert Shifted(kept)[j] == i;
    }
  }

  lemma IsFieldLater(h: Heap, o: Outside, fields: seq<(string, Raw)>, k: nat, entry: (string, Val), depth: nat)
    requires fields != [] && IsField(h, o, fields[1..], k, entry, depth)
    ensures IsField(h, o, fields, k + 1, entry, depth)
  {
    assert fields[1..][k] == fields[k + 1];
  }

  lemma PresentLater(h: Heap, o: Outside, fields: seq<(string, Raw)>, kept: seq<nat>, entries: seq<(string, Val)>,
                     depth: nat)
    requires fields != [] && PresentFields(h, o, fields[1..], kept, entries, depth)
    requires Eval(h, o, fields[0].1, depth) == Missing
    ensures PresentFields(h, o, fields, Shifted(kept), entries, depth)
  {
    var k := Shifted(kept);
    IncreasingFirst(kept);
    forall j | 0 <= j < |k| ensures IsField(h, o, fields, k[j], entries[j], depth) {
      IsFieldLater(h, o, fields, kept[j], entries[j], depth);
    }
    forall i: nat | i < |fields| && i !in k ensures Eval(h, o, fields[i].1, depth) == Missing {
      InShifted(kept, i);
      if i > 0 {
        assert fields[1..][i - 1] == fields[i];
      }
    }
  }

  /** One more field in front of fields that have been shifted by one. */
  lemma PresentFirst(h: Heap, o: Outside, fields: seq<(string, Raw)>, kept: seq<nat>, entries: seq<(string, Val)>,
                     value: Val, depth: nat)
    requires fields != [] && PresentFields(h, o, fields[1..], kept, entries, depth)
    requires Eval(h, o, fields[0].1, depth) == Got(value)
    ensures PresentFields(h, o, fields, [0] + Shifted(kept), [(fields[0].0, value)] + entries, depth)
  {
    var k, all := [0] + Shifted(kept), [(fields[0].0, value)] + entries;
    forall j | 0 <= j < |k| ensures IsField(h, o, fields, k[j], all[j], depth) {
      if j > 0 {
        assert k[j] == kept[j - 1] + 1 && all[j] == entries[j - 1];
        IsFieldLater(h, o, fields, kept[j - 1], entries[j - 1], depth);
      }
    }
    IncreasingFirst(kept);
    OthersMissing(h, o, fields, kept, depth);
  }

  lemma OthersMissing(h: Heap, o: Outside, fields: seq<(string, Raw)>, kept: seq<nat>, depth: nat)
    requires fields != []
    requires forall i: nat | i < |fields[1..]| && i !in kept :: Eval(h, o, fields[1..][i].1, depth) == Missing
    ensures forall i: nat | i < |fields| && i !in [0] + Shifted(kept) :: Eval(h, o, fields[i].1, depth) == Missing
  {
    forall i: nat | i < |fields| && i !in [0] + Shifted(kept) ensures Eval(h, o, fields[i].1, depth) == Missing {
      InShifted(kept, i);
      assert ([0] + Shifted(kept))[0] == 0;
      assert fields[1..][i - 1] == fields[i];
    }
  }

  lemma {:induction false} FieldsMean(h: Heap, o: Outside, fields: seq<(string, Raw)>, depth: nat)
      returns (kept: seq<nat>)
    requires EvalFields(h, o, fields, depth).Gathered?
    ensures PresentFields(h, o, fields, kept, EvalFields(h, o, fields, depth).fields, depth)
    decreases |fields|
  {
    if fields == [] {
      kept := [];
    } else {
      var rest := FieldsMean(h, o, fields[1..], depth);
      var first := Eval(h, o, fields[0].1, depth);
      var entries := EvalFields(h, o, fields[1..], depth).fields;
      if first.Missing? {
        PresentLater(h, o, fields, rest, entries, depth);
        kept := Shifted(rest);
      } else {
        PresentFirst(h, o, fields, rest, entries, first.value, depth);
        kept := [0] + Shifted(rest);
      }
    }
  }

  lemma {:induction false} FieldsGather(h: Heap, o: Outside, fields: seq<(string, Raw)>, depth: nat)
    ensures EvalFields(h, o, fields, depth).Gathered?
       <==> forall i | 0 <= i < |fields| :: !Eval(h, o, fields[i].1, depth).Fail?
    decreases |fields|
  {
    if fields != [] {
      FieldsGather(h, o, fields[1..], depth);
      assert forall i | 0 < i < |fields| :: fields[i] == fields[1..][i - 1];
      if forall i | 0 <= i < |fields| :: !Eval(h, o, fields[i].1, depth).Fail? {
        forall i | 0 <= i < |fields[1..]| ensures !Eval(h, o, fields[1..][i].1, depth).Fail? {
          assert fields[1..][i] == fields[i + 1];
        }
      }
    }
  }

  /** An object has exactly the fields whose value is present, with these values and in their order; there is
      one exactly if no field fails. */
  lemma ObjectMeans(h: Heap, o: Outside, v: Raw, depth: nat) returns (kept: seq<nat>)
    requires IsKind(h, v, Mapping) && depth > 0 && IsRecord(h, Inside(h, v, "fields"))
    ensures var fields, out := FieldsOf(h, Inside(h, v, "fields")), Eval(h, o, v, depth);
            && (out.Fail? || (out.Got? && out.value.VObject?))
            && (out.Got? <==> forall i | 0 <= i < |fields| :: !Eval(h, o, fields[i].1, depth - 1).Fail?)
            && (out.Got? ==> PresentFields(h, o, fields, kept, out.value.fields, depth - 1))
  {
    var fields := FieldsOf(h, Inside(h, v, "fields"));
    EvalIs(h, o, v, Mapping, depth);
    assert EvalKind(h, o, FieldsOf(h, v), Mapping, depth - 1) == EvalObject(h, o, Inside(h, v, "fields"), depth - 1);
    FieldsGather(h, o, fields, depth - 1);
    if EvalFields(h, o, fields, depth - 1).Gathered? {
      kept := FieldsMean(h, o, fields, depth - 1);
    } else {
      kept := [];
    }
  }

  function Concat(texts: seq<string>): string {
    if texts == [] then "" else Concat(texts[..|texts| - 1]) + texts[|texts| - 1]
  }

  lemma {:induction false} ConcatHead(first: string, texts: seq<string>)
    ensures Concat([first] + texts) == first + Concat(texts)
    decreases |texts|
  {
    if texts == [] {
      assert [first] + texts == [first] && [first][..0] == [];
    } else {
      var n := |texts| - 1;
      ConcatHead(first, texts[..n]);
      assert ([first] + texts)[..n + 1] == [first] + texts[..n];
    }
  }

  /** The text of a template part: its own, or that of its expression's value, which has to be JSON. */
  predicate PartIs(h: Heap, o: Outside, slot: Option<Raw>, text: string, depth: nat) {
    slot.Some? && IsRecord(h, slot.value) &&
    if Inside(h, slot.value, "kind") == Str("text") then Inside(h, slot.value, "value") == Str(text)
    else
      var out := Eval(h, o, Inside(h, slot.value, "expr"), depth);
      out.Got? && JsonVal(out.value) && text == o.format(out.value)
  }

  predicate PartsAre(h: Heap, o: Outside, slots: seq<Option<Raw>>, texts: seq<string>, depth: nat) {
    |texts| == |slots| && forall i | 0 <= i < |slots| :: PartIs(h, o, slots[i], texts[i], depth)
  }

  lemma PartMeans(h: Heap, o: Outside, slot: Option<Raw>, text: string, depth: nat)
    requires slot.Some?
    ensures RenderPart(h, o, slot.value, depth) == Got(VStr(text)) <==> PartIs(h, o, slot, text, depth)
    ensures var out := RenderPart(h, o, slot.value, depth); out.Fail? || (out.Got? && out.value.VStr?)
  {
  }

  lemma {:induction false} PartsMean(h: Heap, o: Outside, slots: seq<Option<Raw>>, depth: nat)
      returns (texts: seq<string>)
    requires RenderParts(h, o, slots, depth).Got?
    ensures RenderParts(h, o, slots, depth) == Got(VStr(Concat(texts))) && PartsAre(h, o, slots, texts, depth)
    decreases |slots|
  {
    if slots == [] {
      texts := [];
    } else {
      var rest := PartsMean(h, o, slots[1..], depth);
      PartMeans(h, o, slots[0], "", depth);
      var text := RenderPart(h, o, slots[0].value, depth).value.s;
      PartMeans(h, o, slots[0], text, depth);
      texts := [text] + rest;
      ConcatHead(text, rest);
      forall i | 0 <= i < |slots| ensures PartIs(h, o, slots[i], texts[i], depth) {
        if i > 0 {
          assert slots[1..][i - 1] == slots[i] && rest[i - 1] == texts[i];
        }
      }
    }
  }

  lemma {:induction false} PartsRender(h: Heap, o: Outside, slots: seq<Option<Raw>>, texts: seq<string>, depth: nat)
    requires PartsAre(h, o, slots, texts, depth)
    ensures RenderParts(h, o, slots, depth) == Got(VStr(Concat(texts)))
    decreases |slots|
  {
    if slots != [] {
      forall i | 0 <= i < |slots[1..]| ensures PartIs(h, o, slots[1..][i], texts[1..][i], depth) {
        assert slots[1..][i] == slots[i + 1] && texts[1..][i] == texts[i + 1];
      }
      PartsRender(h, o, slots[1..], texts[1..], depth);
      PartMeans(h, o, slots[0], texts[0], depth);
      ConcatHead(texts[0], texts[1..]);
      assert [texts[0]] + texts[1..] == texts;
    } else {
      assert texts == [];
    }
  }

  ghost predicate JoinsTo(h: Heap, o: Outside, slots: seq<Option<Raw>>, result: Val, depth: nat) {
    exists texts: seq<string> :: PartsAre(h, o, slots, texts, depth) && result == VStr(Concat(texts))
  }

  lemma PartsJoin(h: Heap, o: Outside, slots: seq<Option<Raw>>, result: Val, depth: nat)
    ensures RenderParts(h, o, slots, depth) == Got(result) <==> JoinsTo(h, o, slots, result, depth)
  {
    if RenderParts(h, o, slots, depth) == Got(result) {
      var texts := PartsMean(h, o, slots, depth);
    }
    if texts: seq<string> :| PartsAre(h, o, slots, texts, depth) && result == VStr(Concat(texts)) {
      PartsRender(h, o, slots, texts, depth);
    }
  }

  /** A template is the texts of its parts, joined in their order, and is a string exactly if each part has one. */
  lemma TemplateMeans(h: Heap, o: Outside, v: Raw, result: Val, depth: nat)
    requires IsKind(h, v, Template) && depth > 0 && IsArray(h, Inside(h, v, "parts"))
    ensures Eval(h, o, v, depth) == Got(result)
       <==> JoinsTo(h, o, SlotsOf(h, Inside(h, v, "parts")), result, depth - 1)
  {
    var slots := SlotsOf(h, Inside(h, v, "parts"));
    EvalIs(h, o, v, Template, depth);
    assert EvalKind(h, o, FieldsOf(h, v), Template, depth - 1) == RenderParts(h, o, slots, depth - 1);
    PartsJoin(h, o, slots, result, depth - 1);
  }

  // ---------------------------------------------------------------- what a call evaluates to

  function Shown(x: Val): Out {
    if x == VUndefined then Missing else Got(x)
  }

  function Spelling(n: nat): string {
    if n < 10 then [('0' as int + n) as char] else Spelling(n / 10) + [('0' as int + n % 10) as char]
  }

  lemma {:induction false} SpellingMeans(n: nat)
    ensures Spelling(n) != "" && Digits(Spelling(n)) && Decimal(Spelling(n)) == n
    ensures Spelling(n)[0] == '0' <==> n == 0
    ensures n == 0 ==> |Spelling(n)| == 1
  {
    if n < 10 {
      var t := Spelling(n);
      assert t[..0] == [] && Decimal([]) == 0;
    } else {
      SpellingMeans(n / 10);
      var t, c := Spelling(n / 10), ('0' as int + n % 10) as char;
      assert Spelling(n)[..|t|] == t && Spelling(n)[|t|] == c && Spelling(n)[0] == t[0];
    }
  }

  lemma SpellingStep(d: nat, digit: nat)
    requires d > 0 && digit < 10
    ensures Spelling(10 * d + digit) == Spelling(d) + [('0' as int + digit) as char]
  {
    assert (10 * d + digit) / 10 == d && (10 * d + digit) % 10 == digit;
  }

  lemma LastDigit(s: string) returns (digit: nat)
    requires s != [] && Digits(s)
    ensures digit < 10 && s == s[..|s| - 1] + [('0' as int + digit) as char] && Digits(s[..|s| - 1])
    ensures Decimal(s) == 10 * Decimal(s[..|s| - 1]) + digit
  {
    var c := s[|s| - 1];
    assert '0' <= c <= '9';
    digit := c as int - '0' as int;
  }

  lemma {:induction false} SpelledAs(s: string)
    requires s != [] && Digits(s) && (s[0] != '0' || |s| == 1)
    ensures Spelling(Decimal(s)) == s && (Decimal(s) == 0 <==> s == "0")
    decreases |s|
  {
    var t := s[..|s| - 1];
    var digit := LastDigit(s);
    if t == [] {
      assert Decimal(t) == 0 && s == [s[0]];
    } else {
      assert t[0] == s[0];
      SpelledAs(t);
      assert t != "0";
      SpellingStep(Decimal(t), digit);
    }
  }

  /** A key denotes an index exactly if it is that number, or its canonical spelling. */
  lemma IndexMeans(key: Val, i: nat)
    ensures KeyIndex(key) == Some(i) <==> (key.VNum? && key.finite && key.n == i as real) || key == VStr(Spelling(i))
  {
    SpellingMeans(i);
    if key.VNum? {
      assert (i as real).Floor == i;
    }
    if key.VStr? && KeyIndex(key) == Some(i) {
      SpelledAs(key.s);
    }
  }

  /** The first field of the name. */
  lemma {:induction false} OwnMeans(fields: seq<(string, Val)>, name: string)
    ensures forall k | 0 <= k < |fields| && fields[k].0 == name && (forall j | 0 <= j < k :: fields[j].0 != name) ::
              GetOwn(fields, name) == Shown(fields[k].1)
    ensures (forall j | 0 <= j < |fields| :: fields[j].0 != name) ==> GetOwn(fields, name) == Missing
    decreases |fields|
  {
    if fields != [] && fields[0].0 != name {
      OwnMeans(fields[1..], name);
      forall k | 0 <= k < |fields| && fields[k].0 == name && (forall j | 0 <= j < k :: fields[j].0 != name)
        ensures GetOwn(fields, name) == Shown(fields[k].1)
      {
        assert fields[1..][k - 1] == fields[k];
        assert forall j | 0 <= j < k - 1 :: fields[1..][j] == fields[j + 1];
      }
      if forall j | 0 <= j < |fields| :: fields[j].0 != name {
        assert forall j | 0 <= j < |fields[1..]| :: fields[1..][j] == fields[j + 1];
      }
    }
  }

  /** What an access of a value gives. */
  predicate Accessed(target: Val, key: Val, out: Out) {
    && (target.VArray? ==>
          && (forall i | 0 <= i < |target.items| && KeyIndex(key) == Some(i) :: out == Shown(target.items[i]))
          && ((forall i | 0 <= i < |target.items| :: KeyIndex(key) != Some(i)) ==> out == Missing))
    && (target.VStr? ==>
          && (forall i | 0 <= i < |target.s| && KeyIndex(key) == Some(i) :: out == Got(VStr([target.s[i]])))
          && ((forall i | 0 <= i < |target.s| :: KeyIndex(key) != Some(i)) ==> out == Missing))
    && (target.VObject? && key.VStr? ==>
          && (forall k | 0 <= k < |target.fields| && target.fields[k].0 == key.s
                         && (forall j | 0 <= j < k :: target.fields[j].0 != key.s) :: out == Shown(target.fields[k].1))
          && ((forall j | 0 <= j < |target.fields| :: target.fields[j].0 != key.s) ==> out == Missing))
    && (target.VObject? && !key.VStr? ==> out == Missing)
    && (!target.VArray? && !target.VStr? && !target.VObject? ==> out == Missing)
  }

  lemma GetValueMeans(target: Val, key: Val)
    ensures Accessed(target, key, GetValue(Got(target), key)) && GetValue(Missing, key) == Missing
  {
    if target.VObject? && key.VStr? {
      OwnMeans(target.fields, key.s);
    }
  }

  predicate IsCall(h: Heap, v: Raw, fn: string) {
    IsKind(h, v, Invocation) && Inside(h, v, "fn") == Str(fn) && IsArray(h, Inside(h, v, "args"))
  }

  function ArgsOf(h: Heap, v: Raw): seq<Option<Raw>>
    requires IsRecord(h, v) && IsArray(h, Inside(h, v, "args"))
  {
    SlotsOf(h, Inside(h, v, "args"))
  }

  lemma CallIs(h: Heap, o: Outside, v: Raw, fn: string, depth: nat)
    requires IsCall(h, v, fn) && depth > 0
    ensures Eval(h, o, v, depth) == EvalCall(h, o, Str(fn), Inside(h, v, "args"), depth - 1)
  {
    EvalIs(h, o, v, Invocation, depth);
    assert EvalKind(h, o, FieldsOf(h, v), Invocation, depth - 1)
        == EvalCall(h, o, Inside(h, v, "fn"), Inside(h, v, "args"), depth - 1);
  }

  /** `access` gives the element at an index, or the own field of a name; a missing target, index or field is
      missing, and a missing key fails. */
  lemma AccessMeans(h: Heap, o: Outside, v: Raw, depth: nat)
    requires IsCall(h, v, "access") && depth > 0
    requires |ArgsOf(h, v)| == 2 && ArgsOf(h, v)[0].Some? && ArgsOf(h, v)[1].Some?
    ensures var target := Eval(h, o, ArgsOf(h, v)[0].value, depth - 1);
            var key, out := Eval(h, o, ArgsOf(h, v)[1].value, depth - 1), Eval(h, o, v, depth);
            && (target.Fail? ==> out == target)
            && (!target.Fail? && key.Fail? ==> out == key)
            && (!target.Fail? && key.Missing? ==> out == Fail(MissingValue))
            && (target.Missing? && key.Got? ==> out == Missing)
            && (target.Got? && key.Got? ==> Accessed(target.value, key.value, out))
  {
    var target, key := Eval(h, o, ArgsOf(h, v)[0].value, depth - 1), Eval(h, o, ArgsOf(h, v)[1].value, depth - 1);
    CallIs(h, o, v, "access", depth);
    assert EvalCall(h, o, Str("access"), Inside(h, v, "args"), depth - 1)
        == EvalAccess(h, o, ArgsOf(h, v)[0], ArgsOf(h, v)[1], depth - 1);
    if target.Got? && key.Got? {
      GetValueMeans(target.value, key.value);
    }
  }

  /** The inputs of a callback, in the order of its arguments. */
  predicate InputsAre(h: Heap, o: Outside, slots: seq<Option<Raw>>, inputs: seq<Val>, depth: nat) {
    |inputs| == |slots|
    && forall i | 0 <= i < |slots| ::
         slots[i].Some? && EvalInput(h, o, slots[i].value, depth) == Got(inputs[i]) && CallbackInput(inputs[i])
  }

  lemma InputsHead(h: Heap, o: Outside, slots: seq<Option<Raw>>, inputs: seq<Val>, depth: nat)
    requires slots != [] && inputs != []
    ensures EvalInputs(h, o, slots, depth) == All(inputs)
       <==> slots[0].Some? && EvalInput(h, o, slots[0].value, depth) == Got(inputs[0]) && CallbackInput(inputs[0])
            && EvalInputs(h, o, slots[1..], depth) == All(inputs[1..])
  {
    assert inputs == [inputs[0]] + inputs[1..];
    if EvalInputs(h, o, slots, depth) == All(inputs) {
      var rest := EvalInputs(h, o, slots[1..], depth);
      assert ([inputs[0]] + rest.values)[1..] == rest.values;
    }
  }

  lemma {:induction false} InputsMean(h: Heap, o: Outside, slots: seq<Option<Raw>>, inputs: seq<Val>, depth: nat)
    ensures EvalInputs(h, o, slots, depth) == All(inputs) <==> InputsAre(h, o, slots, inputs, depth)
    decreases |slots|
  {
    if slots != [] {
      if inputs == [] {
        assert EvalInputs(h, o, slots, depth) != All([]);
      } else {
        InputsMean(h, o, slots[1..], inputs[1..], depth);
        InputsHead(h, o, slots, inputs, depth);
        assert forall i | 0 < i < |slots| :: slots[i] == slots[1..][i - 1];
        assert forall i | 0 < i < |inputs| :: inputs[i] == inputs[1..][i - 1];
        if InputsAre(h, o, slots, inputs, depth) {
          assert InputsAre(h, o, slots[1..], inputs[1..], depth);
        }
      }
    }
  }

  /** `lift` gives what its callback, the last argument, returns for the values of the others in their order;
      it gives a value exactly if the callback loads, its inputs and what it returns are JSON, and it returns. */
  lemma LiftMeans(h: Heap, o: Outside, v: Raw, source: string, result: Val, depth: nat)
    requires IsCall(h, v, "lift") && depth > 0
    requires var n := |ArgsOf(h, v)| - 1;
             && 1 <= n <= 3 && ArgsOf(h, v)[n].Some?
             && IsSource(h, ArgsOf(h, v)[n].value) && Source(h, ArgsOf(h, v)[n].value) == source
    ensures Eval(h, o, v, depth) == Got(result) <==>
              var n := |ArgsOf(h, v)| - 1;
              && !o.issue(source, n) && o.loads(source) && JsonVal(result)
              && exists inputs :: InputsAre(h, o, ArgsOf(h, v)[..n], inputs, depth - 1)
                                  && o.run(source, inputs) == Returned(result)
  {
    var n := |ArgsOf(h, v)| - 1;
    CallIs(h, o, v, "lift", depth);
    assert CallbackArg("lift", n + 1) == Some(n);
    assert EvalCall(h, o, Str("lift"), Inside(h, v, "args"), depth - 1)
        == EvalCallback(h, o, ArgsOf(h, v), n, depth - 1);
    CallbackMeans(h, o, ArgsOf(h, v), n, source, result, depth - 1);
  }

  lemma CallbackMeans(h: Heap, o: Outside, slots: seq<Option<Raw>>, n: nat, source: string, result: Val, depth: nat)
    requires n < |slots| && slots[n].Some? && IsSource(h, slots[n].value) && Source(h, slots[n].value) == source
    ensures EvalCallback(h, o, slots, n, depth) == Got(result) <==>
              && !o.issue(source, n) && o.loads(source) && JsonVal(result)
              && exists inputs :: InputsAre(h, o, slots[..n], inputs, depth)
                                  && o.run(source, inputs) == Returned(result)
  {
    var outs := EvalInputs(h, o, slots[..n], depth);
    forall inputs ensures outs == All(inputs) <==> InputsAre(h, o, slots[..n], inputs, depth) {
      InputsMean(h, o, slots[..n], inputs, depth);
    }
    if EvalCallback(h, o, slots, n, depth) == Got(result) {
      assert InputsAre(h, o, slots[..n], outs.values, depth) && o.run(source, outs.values) == Returned(result);
    }
  }

  /** As a callback's input an array has one value for each item, and an object one for each field, undefined
      where the value is missing; a template or a call is what it evaluates to, undefined if that is missing. */
  predicate EachInputIs(h: Heap, o: Outside, slots: seq<Option<Raw>>, values: seq<Val>, depth: nat) {
    |values| == |slots|
    && forall i | 0 <= i < |slots| :: slots[i].Some? && EvalInput(h, o, slots[i].value, depth) == Got(values[i])
  }

  predicate EachFieldIs(h: Heap, o: Outside, fields: seq<(string, Raw)>, entries: seq<(string, Val)>, depth: nat) {
    |entries| == |fields|
    && forall i | 0 <= i < |fields| ::
         entries[i].0 == fields[i].0 && EvalInput(h, o, fields[i].1, depth) == Got(entries[i].1)
  }

  lemma InputPresent(h: Heap, o: Outside, v: Raw, depth: nat)
    ensures !EvalInput(h, o, v, depth).Missing?
  {
    if IsRecord(h, v) && Inside(h, v, "kind").Str? && depth > 0 {
      var kind := KindOf(Inside(h, v, "kind").s);
      EvalIs(h, o, v, kind, depth);
      InputKindPresent(h, o, FieldsOf(h, v), kind, depth - 1);
    }
  }

  lemma InputKindPresent(h: Heap, o: Outside, fields: seq<(string, Raw)>, kind: KindName, depth: nat)
    ensures !InputKind(h, o, fields, kind, depth).Missing?
  {
    assert kind.Sequence? ==> !InputArray(h, o, FieldOr(fields, "items"), depth).Missing?;
    assert kind.Mapping? ==> !InputObject(h, o, FieldOr(fields, "fields"), depth).Missing?;
  }

  lemma {:induction false} InputItemsMean(h: Heap, o: Outside, slots: seq<Option<Raw>>, depth: nat)
    requires InputItems(h, o, slots, depth).All?
    ensures EachInputIs(h, o, slots, InputItems(h, o, slots, depth).values, depth)
    decreases |slots|
  {
    if slots != [] {
      InputPresent(h, o, slots[0].value, depth);
      InputItemsMean(h, o, slots[1..], depth);
      assert forall i | 0 < i < |slots| :: slots[i] == slots[1..][i - 1];
    }
  }

  lemma {:induction false} InputFieldsMean(h: Heap, o: Outside, fields: seq<(string, Raw)>, depth: nat)
    requires InputFields(h, o, fields, depth).Gathered?
    ensures EachFieldIs(h, o, fields, InputFields(h, o, fields, depth).fields, depth)
    decreases |fields|
  {
    if fields != [] {
      InputPresent(h, o, fields[0].1, depth);
      InputFieldsMean(h, o, fields[1..], depth);
      assert forall i | 0 < i < |fields| :: fields[i] == fields[1..][i - 1];
    }
  }

  /** The value of a callback's input: arrays and objects of inputs, with undefined for what is missing; of other
      kinds it is that of the expression. */
  lemma InputMeans(h: Heap, o: Outside, v: Raw, depth: nat)
    requires depth > 0 && EvalInput(h, o, v, depth).Got?
    ensures var value := EvalInput(h, o, v, depth).value;
            && (IsKind(h, v, Sequence) ==>
                  && IsArray(h, Inside(h, v, "items")) && value.VArray?
                  && EachInputIs(h, o, SlotsOf(h, Inside(h, v, "items")), value.items, depth - 1))
            && (IsKind(h, v, Mapping) ==>
                  && IsRecord(h, Inside(h, v, "fields")) && value.VObject?
                  && EachFieldIs(h, o, FieldsOf(h, Inside(h, v, "fields")), value.fields, depth - 1))
            && (IsKind(h, v, Template) || IsKind(h, v, Invocation) ==>
                  var out := Eval(h, o, v, depth);
                  if out == Missing then value == VUndefined else out == Got(value))
  {
    if IsKind(h, v, Sequence) {
      EvalIs(h, o, v, Sequence, depth);
      assert EvalInput(h, o, v, depth) == InputArray(h, o, Inside(h, v, "items"), depth - 1);
      InputItemsMean(h, o, SlotsOf(h, Inside(h, v, "items")), depth - 1);
    } else if IsKind(h, v, Mapping) {
      EvalIs(h, o, v, Mapping, depth);
      assert EvalInput(h, o, v, depth) == InputObject(h, o, Inside(h, v, "fields"), depth - 1);
      InputFieldsMean(h, o, FieldsOf(h, Inside(h, v, "fields")), depth - 1);
    }
  }

  // ---------------------------------------------------------------- soundness

  /** What may go wrong with an expression that the validator accepts. */
  predicate OfValues(e: Error) {
    e.MissingValue? || e.NotJson? || e.CallbackNotLoaded? || e.CallbackFailed?
  }

  predicate Benign(out: Out) {
    out.Fail? ==> OfValues(out.error)
  }

  /** With the validator inside `seen`, the depth suffices for every record not seen yet. */
  predicate Deep(h: Heap, seen: set<Ref>, depth: nat) {
    depth > |h.Keys - seen|
  }

  lemma {:induction false} ExprSound(h: Heap, o: Outside, v: Raw, path: seq<Step>, seen: set<Ref>, depth: nat)
    requires Expr(h, o, v, path, seen) == [] && Deep(h, seen, depth)
    ensures Benign(Eval(h, o, v, depth)) && Benign(EvalInput(h, o, v, depth))
    decreases h.Keys - seen, 0, 0
  {
    var inside := seen + {v.ref};
    assert h.Keys - seen == (h.Keys - inside) + {v.ref};
    KindSound(h, o, FieldsOf(h, v), FieldOr(FieldsOf(h, v), "kind").s, path, inside, depth - 1);
  }

  lemma KindSound(h: Heap, o: Outside, fields: seq<(string, Raw)>, kind: string, path: seq<Step>, seen: set<Ref>,
                  depth: nat)
    requires Kind(h, o, fields, kind, path, seen) == [] && Deep(h, seen, depth)
    ensures Benign(EvalKind(h, o, fields, KindOf(kind), depth)) && Benign(InputKind(h, o, fields, KindOf(kind), depth))
    decreases h.Keys - seen, 4, 0
  {
    match KindOf(kind) {
      case Literal =>
      case Reference => RefSound(h, o, FieldOr(fields, "path"), path + [Key("path")]);
      case Sequence => ArraySound(h, o, FieldOr(fields, "items"), path + [Key("items")], seen, depth);
      case Mapping => ObjectSound(h, o, FieldOr(fields, "fields"), path + [Key("fields")], seen, depth);
      case Template => TemplateSound(h, o, fields, path, seen, depth);
      case Invocation => CallSound(h, o, fields, path, seen, depth);
      case Unknown =>
    }
    EvalKindBenign(h, o, fields, KindOf(kind), depth);
    InputKindBenign(h, o, fields, KindOf(kind), depth);
  }

  /** An expression is evaluated as its kind is. */
  lemma EvalKindBenign(h: Heap, o: Outside, fields: seq<(string, Raw)>, kind: KindName, depth: nat)
    requires !kind.Unknown?
    requires kind.Reference? ==> Benign(ResolveRef(h, o, FieldOr(fields, "path")))
    requires kind.Sequence? ==> Benign(EvalArray(h, o, FieldOr(fields, "items"), depth))
    requires kind.Mapping? ==> Benign(EvalObject(h, o, FieldOr(fields, "fields"), depth))
    requires kind.Template? ==> Benign(RenderTemplate(h, o, FieldOr(fields, "parts"), depth))
    requires kind.Invocation? ==> Benign(EvalCall(h, o, FieldOr(fields, "fn"), FieldOr(fields, "args"), depth))
    ensures Benign(EvalKind(h, o, fields, kind, depth))
  {
  }

  lemma InputKindBenign(h: Heap, o: Outside, fields: seq<(string, Raw)>, kind: KindName, depth: nat)
    requires !kind.Unknown? && Benign(EvalKind(h, o, fields, kind, depth))
    requires kind.Sequence? ==> Benign(InputArray(h, o, FieldOr(fields, "items"), depth))
    requires kind.Mapping? ==> Benign(InputObject(h, o, FieldOr(fields, "fields"), depth))
    ensures Benign(InputKind(h, o, fields, kind, depth))
  {
  }

  lemma ArraySound(h: Heap, o: Outside, items: Raw, path: seq<Step>, seen: set<Ref>, depth: nat)
    requires ItemsOf(h, o, items, path, seen) == [] && Deep(h, seen, depth)
    ensures Benign(EvalArray(h, o, items, depth)) && Benign(InputArray(h, o, items, depth))
    decreases h.Keys - seen, 3, 0
  {
    ItemsSound(h, o, SlotsOf(h, items), 0, path, seen, depth);
    assert SlotsOf(h, items)[0..] == SlotsOf(h, items);
  }

  lemma ObjectSound(h: Heap, o: Outside, inner: Raw, path: seq<Step>, seen: set<Ref>, depth: nat)
    requires InnerFields(h, o, inner, path, seen) == [] && Deep(h, seen, depth)
    ensures Benign(EvalObject(h, o, inner, depth)) && Benign(InputObject(h, o, inner, depth))
    decreases h.Keys - seen, 3, 0
  {
    FieldsSound(h, o, FieldsOf(h, inner), 0, path, seen, depth);
    assert FieldsOf(h, inner)[0..] == FieldsOf(h, inner);
  }

  lemma TemplateSound(h: Heap, o: Outside, fields: seq<(string, Raw)>, path: seq<Step>, seen: set<Ref>, depth: nat)
    requires TemplateKind(h, o, fields, path, seen) == [] && Deep(h, seen, depth)
    ensures Benign(RenderTemplate(h, o, FieldOr(fields, "parts"), depth))
    decreases h.Keys - seen, 3, 0
  {
    var slots := SlotsOf(h, FieldOr(fields, "parts"));
    PartsSound(h, o, slots, 0, path + [Key("parts")], seen, depth);
    assert slots[0..] == slots;
  }

  lemma RefSound(h: Heap, o: Outside, v: Raw, path: seq<Step>)
    requires RefPath(h, v, path) == []
    ensures Benign(ResolveRef(h, o, v))
  {
    SegmentsSound(SlotsOf(h, v), 0, path);
  }

  lemma {:induction false} SegmentsSound(slots: seq<Option<Raw>>, from: nat, path: seq<Step>)
    requires from <= |slots| && PathSegments(slots, from, path) == []
    ensures StringSlots(slots[from..])
    decreases |slots| - from
  {
    if from < |slots| {
      SegmentsSound(slots, from + 1, path);
      assert slots[from..] == [slots[from]] + slots[from + 1..];
    }
  }

  lemma EvalItemsStep(h: Heap, o: Outside, slots: seq<Option<Raw>>, depth: nat)
    requires slots != [] && slots[0].Some? && Benign(Eval(h, o, slots[0].value, depth))
    requires var rest := EvalItems(h, o, slots[1..], depth); rest.Broken? ==> OfValues(rest.error)
    ensures var outs := EvalItems(h, o, slots, depth); outs.Broken? ==> OfValues(outs.error)
  {
  }

  lemma InputItemsStep(h: Heap, o: Outside, slots: seq<Option<Raw>>, depth: nat)
    requires slots != [] && slots[0].Some? && Benign(EvalInput(h, o, slots[0].value, depth))
    requires var rest := InputItems(h, o, slots[1..], depth); rest.Broken? ==> OfValues(rest.error)
    ensures var outs := InputItems(h, o, slots, depth); outs.Broken? ==> OfValues(outs.error)
  {
  }

  lemma EvalFieldsStep(h: Heap, o: Outside, fields: seq<(string, Raw)>, depth: nat)
    requires fields != [] && Benign(Eval(h, o, fields[0].1, depth))
    requires var rest := EvalFields(h, o, fields[1..], depth); rest.Spoilt? ==> OfValues(rest.error)
    ensures var entries := EvalFields(h, o, fields, depth); entries.Spoilt? ==> OfValues(entries.error)
  {
  }

  lemma InputFieldsStep(h: Heap, o: Outside, fields: seq<(string, Raw)>, depth: nat)
    requires fields != [] && Benign(EvalInput(h, o, fields[0].1, depth))
    requires var rest := InputFields(h, o, fields[1..], depth); rest.Spoilt? ==> OfValues(rest.error)
    ensures var entries := InputFields(h, o, fields, depth); entries.Spoilt? ==> OfValues(entries.error)
  {
  }

  lemma {:induction false} ItemsSound(h: Heap, o: Outside, slots: seq<Option<Raw>>, from: nat, path: seq<Step>,
                                      seen: set<Ref>, depth: nat)
    requires from <= |slots| && Items(h, o, slots, from, path, seen) == [] && Deep(h, seen, depth)
    ensures var outs := EvalItems(h, o, slots[from..], depth); outs.Broken? ==> OfValues(outs.error)
    ensures var outs := InputItems(h, o, slots[from..], depth); outs.Broken? ==> OfValues(outs.error)
    decreases h.Keys - seen, 1, |slots| - from
  {
    if from < |slots| {
      ExprSound(h, o, slots[from].value, path + [Index(from)], seen, depth);
      ItemsSound(h, o, slots, from + 1, path, seen, depth);
      assert slots[from..][1..] == slots[from + 1..];
      EvalItemsStep(h, o, slots[from..], depth);
      InputItemsStep(h, o, slots[from..], depth);
    }
  }

  lemma {:induction false} FieldsSound(h: Heap, o: Outside, fields: seq<(string, Raw)>, from: nat, path: seq<Step>,
                                       seen: set<Ref>, depth: nat)
    requires from <= |fields| && Fields(h, o, fields, from, path, seen) == [] && Deep(h, seen, depth)
    ensures var entries := EvalFields(h, o, fields[from..], depth); entries.Spoilt? ==> OfValues(entries.error)
    ensures var entries := InputFields(h, o, fields[from..], depth); entries.Spoilt? ==> OfValues(entries.error)
    decreases h.Keys - seen, 1, |fields| - from
  {
    if from < |fields| {
      ExprSound(h, o, fields[from].1, path + [Key(fields[from].0)], seen, depth);
      FieldsSound(h, o, fields, from + 1, path, seen, depth);
      assert fields[from..][1..] == fields[from + 1..];
      EvalFieldsStep(h, o, fields[from..], depth);
      InputFieldsStep(h, o, fields[from..], depth);
    }
  }

  lemma {:induction false} PartsSound(h: Heap, o: Outside, slots: seq<Option<Raw>>, from: nat, path: seq<Step>,
                                      seen: set<Ref>, depth: nat)
    requires from <= |slots| && Parts(h, o, slots, from, path, seen) == [] && Deep(h, seen, depth)
    ensures Benign(RenderParts(h, o, slots[from..], depth))
    decreases h.Keys - seen, 1, |slots| - from
  {
    if from < |slots| {
      PartSound(h, o, slots[from].value, path + [Index(from)], seen, depth);
      PartsSound(h, o, slots, from + 1, path, seen, depth);
      assert slots[from..][1..] == slots[from + 1..];
      RenderedSound(h, o, slots[from..], depth);
    }
  }

  lemma PartSound(h: Heap, o: Outside, part: Raw, path: seq<Step>, seen: set<Ref>, depth: nat)
    requires Part(h, o, part, path, seen) == [] && Deep(h, seen, depth)
    ensures Benign(RenderPart(h, o, part, depth))
    decreases h.Keys - seen, 1, 0
  {
    if FieldOr(FieldsOf(h, part), "kind") == Str("expr") {
      ExprSound(h, o, FieldOr(FieldsOf(h, part), "expr"), path + [Key("expr")], seen, depth);
    }
  }

  lemma RenderedSound(h: Heap, o: Outside, slots: seq<Option<Raw>>, depth: nat)
    requires slots != [] && slots[0].Some?
    requires Benign(RenderPart(h, o, slots[0].value, depth)) && Benign(RenderParts(h, o, slots[1..], depth))
    ensures Benign(RenderParts(h, o, slots, depth))
  {
  }

  /** The argument is there and evaluates soundly; a callback source is a string without an issue. */
  predicate ArgSafe(h: Heap, o: Outside, slot: Option<Raw>, index: nat, callback: Option<nat>, depth: nat) {
    && slot.Some? && Benign(Eval(h, o, slot.value, depth)) && Benign(EvalInput(h, o, slot.value, depth))
    && (callback == Some(index) ==> IsSource(h, slot.value) && !o.issue(Source(h, slot.value), index))
  }

  lemma {:induction false} ArgsEach(h: Heap, o: Outside, slots: seq<Option<Raw>>, from: nat, callback: Option<nat>,
                                    path: seq<Step>, seen: set<Ref>, i: nat)
    requires from <= i < |slots| && Args(h, o, slots, from, callback, path, seen) == []
    ensures Arg(h, o, slots[i], i, callback, path + [Index(i)], seen) == []
    decreases i - from
  {
    if from < i {
      ArgsEach(h, o, slots, from + 1, callback, path, seen, i);
    }
  }

  lemma ArgSound(h: Heap, o: Outside, slot: Option<Raw>, index: nat, callback: Option<nat>, path: seq<Step>,
                 seen: set<Ref>, depth: nat)
    requires Arg(h, o, slot, index, callback, path, seen) == [] && Deep(h, seen, depth)
    ensures ArgSafe(h, o, slot, index, callback, depth)
    decreases h.Keys - seen, 1, 0
  {
    assert Expr(h, o, slot.value, path, seen) == [];
    ExprSound(h, o, slot.value, path, seen, depth);
  }

  lemma {:induction false} InputsSound(h: Heap, o: Outside, slots: seq<Option<Raw>>, depth: nat)
    requires forall s | s in slots :: s.Some? && Benign(EvalInput(h, o, s.value, depth))
    ensures var outs := EvalInputs(h, o, slots, depth); outs.Broken? ==> OfValues(outs.error)
    decreases |slots|
  {
    if slots != [] {
      assert slots[0] in slots;
      InputsSound(h, o, slots[1..], depth);
    }
  }

  lemma CallSound(h: Heap, o: Outside, fields: seq<(string, Raw)>, path: seq<Step>, seen: set<Ref>, depth: nat)
    requires Call(h, o, fields, path, seen) == [] && Deep(h, seen, depth)
    ensures Benign(EvalCall(h, o, FieldOr(fields, "fn"), FieldOr(fields, "args"), depth))
    decreases h.Keys - seen, 3, 0
  {
    var fn, slots := FieldOr(fields, "fn").s, SlotsOf(h, FieldOr(fields, "args"));
    var callback, here := CallbackArg(fn, |slots|), path + [Key("args")];
    assert ArityIssue(fn, |slots|, here) == [] && Args(h, o, slots, 0, callback, here, seen) == [];
    forall i | 0 <= i < |slots| ensures ArgSafe(h, o, slots[i], i, callback, depth) {
      ArgsEach(h, o, slots, 0, callback, here, seen, i);
      ArgSound(h, o, slots[i], i, callback, here + [Index(i)], seen, depth);
    }
    if callback.Some? {
      CallbackSound(h, o, slots, callback.value, depth);
    } else {
      AccessSound(h, o, slots, depth);
    }
  }

  lemma AccessSound(h: Heap, o: Outside, slots: seq<Option<Raw>>, depth: nat)
    requires |slots| == 2 && forall i | 0 <= i < |slots| :: ArgSafe(h, o, slots[i], i, None, depth)
    ensures Benign(EvalAccess(h, o, slots[0], slots[1], depth))
  {
    assert ArgSafe(h, o, slots[0], 0, None, depth) && ArgSafe(h, o, slots[1], 1, None, depth);
  }

  lemma CallbackSound(h: Heap, o: Outside, slots: seq<Option<Raw>>, callback: nat, depth: nat)
    requires callback < |slots| && forall i | 0 <= i < |slots| :: ArgSafe(h, o, slots[i], i, Some(callback), depth)
    ensures Benign(EvalCallback(h, o, slots, callback, depth))
  {
    assert ArgSafe(h, o, slots[callback], callback, Some(callback), depth);
    forall s | s in slots[..callback] ensures s.Some? && Benign(EvalInput(h, o, s.value, depth)) {
      var i :| 0 <= i < callback && slots[i] == s;
      assert ArgSafe(h, o, slots[i], i, Some(callback), depth);
    }
    InputsSound(h, o, slots[..callback], depth);
  }

  /** The main result: no diagnostics, no failure of shape, no endless evaluation. */
  lemma ValidatorSound(h: Heap, o: Outside, v: Raw)
    requires Expr(h, o, v, [], {}) == []
    ensures Benign(Eval(h, o, v, |h| + 1))
  {
    assert h.Keys - {} == h.Keys;
    ExprSound(h, o, v, [], {}, |h| + 1);
  }

  // ---------------------------------------------------------------- what the validator accepts

  predicate OnlyFields(fields: seq<(string, Raw)>, allowed: seq<string>) {
    forall f | f in fields :: f.0 in allowed
  }

  predicate StringPath(h: Heap, v: Raw) {
    IsArray(h, v) && SlotsOf(h, v) != [] && forall s | s in SlotsOf(h, v) :: s.Some? && s.value.Str?
  }

  /** The arguments have the right number, and the callback of a lift is a literal source without an issue. */
  predicate RightArgs(h: Heap, o: Outside, fn: Raw, slots: seq<Option<Raw>>) {
    || (fn == Str("access") && |slots| == 2)
    || (fn == Str("lift") && 2 <= |slots| <= 4
        && (var last := slots[|slots| - 1];
            last.Some? && IsSource(h, last.value) && !o.issue(Source(h, last.value), |slots| - 1)))
  }

  predicate WellFormedPart(h: Heap, o: Outside, part: Raw, n: nat)
    decreases n, 1
  {
    IsRecord(h, part) &&
    (|| (Inside(h, part, "kind") == Str("text") && OnlyFields(FieldsOf(h, part), ["kind", "value"])
         && Inside(h, part, "value").Str?)
     || (Inside(h, part, "kind") == Str("expr") && OnlyFields(FieldsOf(h, part), ["kind", "expr"])
         && WellFormed(h, o, Inside(h, part, "expr"), n)))
  }

  /** The grammar of expressions, for expressions at most `n` inside of each other. */
  predicate WellFormed(h: Heap, o: Outside, v: Raw, n: nat)
    decreases n, 0
  {
    n > 0 && IsRecord(h, v) &&
    var fields, kind := FieldsOf(h, v), Inside(h, v, "kind");
    || (kind == Str("literal") && OnlyFields(fields, ["kind", "value"])
        && Field(fields, "value").Some? && IsPrimitive(Inside(h, v, "value")))
    || (kind == Str("ref") && OnlyFields(fields, ["kind", "path"]) && StringPath(h, Inside(h, v, "path")))
    || (kind == Str("array") && OnlyFields(fields, ["kind", "items"]) && IsArray(h, Inside(h, v, "items"))
        && forall s | s in SlotsOf(h, Inside(h, v, "items")) :: s.Some? && WellFormed(h, o, s.value, n - 1))
    || (kind == Str("object") && OnlyFields(fields, ["kind", "fields"]) && IsRecord(h, Inside(h, v, "fields"))
        && forall f | f in FieldsOf(h, Inside(h, v, "fields")) :: WellFormed(h, o, f.1, n - 1))
    || (kind == Str("template") && OnlyFields(fields, ["kind", "parts"]) && IsArray(h, Inside(h, v, "parts"))
        && forall s | s in SlotsOf(h, Inside(h, v, "parts")) :: s.Some? && WellFormedPart(h, o, s.value, n - 1))
    || (kind == Str("call") && OnlyFields(fields, ["kind", "fn", "args"]) && IsArray(h, Inside(h, v, "args"))
        && RightArgs(h, o, Inside(h, v, "fn"), ArgsOf(h, v))
        && forall s | s in ArgsOf(h, v) :: s.Some? && WellFormed(h, o, s.value, n - 1))
  }

  lemma {:induction false} MoreRoom(h: Heap, o: Outside, v: Raw, n: nat, m: nat)
    requires WellFormed(h, o, v, n) && n <= m
    ensures WellFormed(h, o, v, m)
    decreases n
  {
    var k, l := n - 1, m - 1;
    forall x: Raw | WellFormed(h, o, x, k) ensures WellFormed(h, o, x, l) {
      MoreRoom(h, o, x, k, l);
    }
    forall x: Raw | WellFormedPart(h, o, x, k) ensures WellFormedPart(h, o, x, l) {
    }
  }

  lemma {:induction false} UnknownNone(fields: seq<(string, Raw)>, allowed: seq<string>, path: seq<Step>)
    ensures UnknownFields(fields, allowed, path) == [] <==> OnlyFields(fields, allowed)
    decreases |fields|
  {
    if fields != [] {
      UnknownNone(fields[1..], allowed, path);
      assert fields == [fields[0]] + fields[1..];
    }
  }

  lemma {:induction false} SegmentsAll(slots: seq<Option<Raw>>, from: nat, path: seq<Step>)
    requires from <= |slots|
    ensures PathSegments(slots, from, path) == [] <==>
              forall i | from <= i < |slots| :: slots[i].Some? && slots[i].value.Str?
    decreases |slots| - from
  {
    if from < |slots| {
      SegmentsAll(slots, from + 1, path);
    }
  }

  predicate ItemPasses(h: Heap, o: Outside, slot: Option<Raw>, index: nat, path: seq<Step>, seen: set<Ref>) {
    slot.Some? && Expr(h, o, slot.value, path + [Index(index)], seen) == []
  }

  lemma ItemsFrom(h: Heap, o: Outside, slots: seq<Option<Raw>>, from: nat, path: seq<Step>, seen: set<Ref>)
    requires from < |slots|
    ensures Items(h, o, slots, from, path, seen) == [] <==>
              ItemPasses(h, o, slots[from], from, path, seen) && Items(h, o, slots, from + 1, path, seen) == []
  {
  }

  lemma {:induction false} ItemsAll(h: Heap, o: Outside, slots: seq<Option<Raw>>, from: nat, path: seq<Step>,
                                    seen: set<Ref>)
    requires from <= |slots|
    ensures Items(h, o, slots, from, path, seen) == [] <==>
              forall i | from <= i < |slots| :: ItemPasses(h, o, slots[i], i, path, seen)
    decreases |slots| - from
  {
    if from < |slots| {
      ItemsFrom(h, o, slots, from, path, seen);
      ItemsAll(h, o, slots, from + 1, path, seen);
    }
  }

  predicate FieldPasses(h: Heap, o: Outside, field: (string, Raw), path: seq<Step>, seen: set<Ref>) {
    Expr(h, o, field.1, path + [Key(field.0)], seen) == []
  }

  lemma FieldsFrom(h: Heap, o: Outside, fields: seq<(string, Raw)>, from: nat, path: seq<Step>, seen: set<Ref>)
    requires from < |fields|
    ensures Fields(h, o, fields, from, path, seen) == [] <==>
              FieldPasses(h, o, fields[from], path, seen) && Fields(h, o, fields, from + 1, path, seen) == []
  {
  }

  lemma {:induction false} FieldsAll(h: Heap, o: Outside, fields: seq<(string, Raw)>, from: nat, path: seq<Step>,
                                     seen: set<Ref>)
    requires from <= |fields|
    ensures Fields(h, o, fields, from, path, seen) == [] <==>
              forall i | from <= i < |fields| :: FieldPasses(h, o, fields[i], path, seen)
    decreases |fields| - from
  {
    if from < |fields| {
      FieldsFrom(h, o, fields, from, path, seen);
      FieldsAll(h, o, fields, from + 1, path, seen);
    }
  }

  predicate PartPasses(h: Heap, o: Outside, slot: Option<Raw>, index: nat, path: seq<Step>, seen: set<Ref>) {
    slot.Some? && Part(h, o, slot.value, path + [Index(index)], seen) == []
  }

  lemma PartsFrom(h: Heap, o: Outside, slots: seq<Option<Raw>>, from: nat, path: seq<Step>, seen: set<Ref>)
    requires from < |slots|
    ensures Parts(h, o, slots, from, path, seen) == [] <==>
              PartPasses(h, o, slots[from], from, path, seen) && Parts(h, o, slots, from + 1, path, seen) == []
  {
  }

  lemma {:induction false} PartsSuffix(h: Heap, o: Outside, slots: seq<Option<Raw>>, from: nat, path: seq<Step>,
                                       seen: set<Ref>, i: nat)
    requires from <= i <= |slots| && Parts(h, o, slots, from, path, seen) == []
    ensures Parts(h, o, slots, i, path, seen) == []
    decreases i - from
  {
    if from < i {
      PartsSuffix(h, o, slots, from + 1, path, seen, i);
    }
  }

  /** A part with a diagnostic, if there are any diagnostics. */
  lemma {:induction false} PartsFault(h: Heap, o: Outside, slots: seq<Option<Raw>>, from: nat, path: seq<Step>,
                                      seen: set<Ref>) returns (i: nat)
    requires from <= |slots| && Parts(h, o, slots, from, path, seen) != []
    ensures i < |slots| && !PartPasses(h, o, slots[i], i, path, seen)
    decreases |slots| - from
  {
    PartsFrom(h, o, slots, from, path, seen);
    if PartPasses(h, o, slots[from], from, path, seen) {
      i := PartsFault(h, o, slots, from + 1, path, seen);
    } else {
      i := from;
    }
  }

  lemma {:induction false} ArgsAll(h: Heap, o: Outside, slots: seq<Option<Raw>>, from: nat, callback: Option<nat>,
                                   path: seq<Step>, seen: set<Ref>)
    requires from <= |slots|
    ensures Args(h, o, slots, from, callback, path, seen) == [] <==>
              forall i | from <= i < |slots| :: Arg(h, o, slots[i], i, callback, path + [Index(i)], seen) == []
    decreases |slots| - from
  {
    if from < |slots| {
      ArgsAll(h, o, slots, from + 1, callback, path, seen);
    }
  }

  /** No expression around has its record where an expression of at most `n` could begin. */
  predicate Above(h: Heap, o: Outside, seen: set<Ref>, n: nat) {
    forall r | r in seen :: !WellFormed(h, o, At(r), n)
  }

  lemma AboveLess(h: Heap, o: Outside, seen: set<Ref>, n: nat, m: nat)
    requires Above(h, o, seen, n) && m <= n
    ensures Above(h, o, seen, m)
  {
    forall r | r in seen ensures !WellFormed(h, o, At(r), m) {
      if WellFormed(h, o, At(r), m) {
        MoreRoom(h, o, At(r), m, n);
      }
    }
  }

  /** The room an expression needs. */
  lemma {:induction false} LeastRoom(h: Heap, o: Outside, v: Raw, n: nat) returns (m: nat)
    requires WellFormed(h, o, v, n)
    ensures 0 < m <= n && WellFormed(h, o, v, m) && !WellFormed(h, o, v, m - 1)
    decreases n
  {
    if WellFormed(h, o, v, n - 1) {
      m := LeastRoom(h, o, v, n - 1);
    } else {
      m := n;
    }
  }

  lemma {:induction false} Accepted(h: Heap, o: Outside, v: Raw, path: seq<Step>, seen: set<Ref>, n: nat)
    requires WellFormed(h, o, v, n) && Above(h, o, seen, n)
    ensures Expr(h, o, v, path, seen) == []
    decreases n, 2
  {
    var m := LeastRoom(h, o, v, n);
    var inside := seen + {v.ref};
    AboveLess(h, o, seen, n, m - 1);
    assert v == At(v.ref) && v.ref !in seen;
    assert Above(h, o, inside, m - 1);
    var kind := Inside(h, v, "kind").s;
    KindAccepted(h, o, v, path, inside, m);
    assert Expr(h, o, v, path, seen) == Kind(h, o, FieldsOf(h, v), kind, path, inside);
  }

  lemma KindAccepted(h: Heap, o: Outside, v: Raw, path: seq<Step>, seen: set<Ref>, m: nat)
    requires m > 0 && WellFormed(h, o, v, m) && Above(h, o, seen, m - 1)
    ensures Inside(h, v, "kind").Str? && Kind(h, o, FieldsOf(h, v), Inside(h, v, "kind").s, path, seen) == []
    decreases m, 1
  {
    var fields := FieldsOf(h, v);
    match KindOf(Inside(h, v, "kind").s) {
      case Literal => UnknownNone(fields, ["kind", "value"], path);
      case Reference =>
        UnknownNone(fields, ["kind", "path"], path);
        SegmentsAll(SlotsOf(h, Inside(h, v, "path")), 0, path + [Key("path")]);
      case Sequence =>
        UnknownNone(fields, ["kind", "items"], path);
        ItemsAccepted(h, o, SlotsOf(h, Inside(h, v, "items")), path + [Key("items")], seen, m - 1);
      case Mapping =>
        UnknownNone(fields, ["kind", "fields"], path);
        FieldsAccepted(h, o, FieldsOf(h, Inside(h, v, "fields")), path + [Key("fields")], seen, m - 1);
      case Template =>
        UnknownNone(fields, ["kind", "parts"], path);
        PartsAccepted(h, o, SlotsOf(h, Inside(h, v, "parts")), path + [Key("parts")], seen, m - 1);
      case Invocation =>
        UnknownNone(fields, ["kind", "fn", "args"], path);
        CallAccepted(h, o, v, path, seen, m - 1);
      case Unknown =>
    }
  }

  lemma ItemsAccepted(h: Heap, o: Outside, slots: seq<Option<Raw>>, path: seq<Step>, seen: set<Ref>, n: nat)
    requires Above(h, o, seen, n) && forall s | s in slots :: s.Some? && WellFormed(h, o, s.value, n)
    ensures Items(h, o, slots, 0, path, seen) == []
    decreases n, 3
  {
    forall i | 0 <= i < |slots| ensures ItemPasses(h, o, slots[i], i, path, seen) {
      assert slots[i] in slots;
      Accepted(h, o, slots[i].value, path + [Index(i)], seen, n);
    }
    ItemsAll(h, o, slots, 0, path, seen);
  }

  lemma FieldsAccepted(h: Heap, o: Outside, fields: seq<(string, Raw)>, path: seq<Step>, seen: set<Ref>, n: nat)
    requires Above(h, o, seen, n) && forall f | f in fields :: WellFormed(h, o, f.1, n)
    ensures Fields(h, o, fields, 0, path, seen) == []
    decreases n, 3
  {
    forall i | 0 <= i < |fields| ensures FieldPasses(h, o, fields[i], path, seen) {
      assert fields[i] in fields;
      Accepted(h, o, fields[i].1, path + [Key(fields[i].0)], seen, n);
    }
    FieldsAll(h, o, fields, 0, path, seen);
  }

  lemma PartAccepted(h: Heap, o: Outside, part: Raw, path: seq<Step>, seen: set<Ref>, n: nat)
    requires Above(h, o, seen, n) && WellFormedPart(h, o, part, n)
    ensures Part(h, o, part, path, seen) == []
    decreases n, 3
  {
    var fields := FieldsOf(h, part);
    if Inside(h, part, "kind") == Str("expr") {
      UnknownNone(fields, ["kind", "expr"], path);
      Accepted(h, o, Inside(h, part, "expr"), path + [Key("expr")], seen, n);
    } else {
      UnknownNone(fields, ["kind", "value"], path);
    }
  }

  lemma PartsAccepted(h: Heap, o: Outside, slots: seq<Option<Raw>>, path: seq<Step>, seen: set<Ref>, n: nat)
    requires Above(h, o, seen, n) && forall s | s in slots :: s.Some? && WellFormedPart(h, o, s.value, n)
    ensures Parts(h, o, slots, 0, path, seen) == []
    decreases n, 4
  {
    if Parts(h, o, slots, 0, path, seen) != [] {
      var i := PartsFault(h, o, slots, 0, path, seen);
      assert slots[i] in slots;
      PartAccepted(h, o, slots[i].value, path + [Index(i)], seen, n);
    }
  }

  lemma CallAccepted(h: Heap, o: Outside, v: Raw, path: seq<Step>, seen: set<Ref>, n: nat)
    requires Above(h, o, seen, n) && IsRecord(h, v) && IsArray(h, Inside(h, v, "args"))
    requires RightArgs(h, o, Inside(h, v, "fn"), ArgsOf(h, v))
    requires forall s | s in ArgsOf(h, v) :: s.Some? && WellFormed(h, o, s.value, n)
    ensures Call(h, o, FieldsOf(h, v), path, seen) == []
    decreases n, 4
  {
    var slots, here := ArgsOf(h, v), path + [Key("args")];
    var callback := CallbackArg(Inside(h, v, "fn").s, |slots|);
    forall i | 0 <= i < |slots| ensures Arg(h, o, slots[i], i, callback, here + [Index(i)], seen) == [] {
      assert slots[i] in slots;
      Accepted(h, o, slots[i].value, here + [Index(i)], seen, n);
    }
    ArgsAll(h, o, slots, 0, callback, here, seen);
  }

  lemma RoomLeft(h: Heap, r: Ref, seen: set<Ref>)
    requires r in h && r !in seen
    ensures |h.Keys - seen| == |h.Keys - (seen + {r})| + 1
  {
    assert h.Keys - seen == (h.Keys - (seen + {r})) + {r};
  }

  /** What the validator has no diagnostic for is well formed, with room for every record not seen yet. */
  lemma {:induction false} AcceptedIsWellFormed(h: Heap, o: Outside, v: Raw, path: seq<Step>, seen: set<Ref>)
    requires Expr(h, o, v, path, seen) == []
    ensures WellFormed(h, o, v, |h.Keys - seen|)
    decreases h.Keys - seen, 0
  {
    var inside := seen + {v.ref};
    assert Kind(h, o, FieldsOf(h, v), Inside(h, v, "kind").s, path, inside) == [];
    RoomLeft(h, v.ref, seen);
    KindWellFormed(h, o, v, path, inside);
  }

  lemma KindWellFormed(h: Heap, o: Outside, v: Raw, path: seq<Step>, seen: set<Ref>)
    requires IsRecord(h, v) && Inside(h, v, "kind").Str?
    requires Kind(h, o, FieldsOf(h, v), Inside(h, v, "kind").s, path, seen) == []
    ensures WellFormed(h, o, v, |h.Keys - seen| + 1)
    decreases h.Keys - seen, 3
  {
    var fields := FieldsOf(h, v);
    match KindOf(Inside(h, v, "kind").s) {
      case Literal => UnknownNone(fields, ["kind", "value"], path);
      case Reference =>
        UnknownNone(fields, ["kind", "path"], path);
        SegmentsAll(SlotsOf(h, Inside(h, v, "path")), 0, path + [Key("path")]);
      case Sequence =>
        UnknownNone(fields, ["kind", "items"], path);
        ItemsWellFormed(h, o, SlotsOf(h, Inside(h, v, "items")), path + [Key("items")], seen);
      case Mapping =>
        UnknownNone(fields, ["kind", "fields"], path);
        FieldsWellFormed(h, o, FieldsOf(h, Inside(h, v, "fields")), path + [Key("fields")], seen);
      case Template =>
        UnknownNone(fields, ["kind", "parts"], path);
        PartsWellFormed(h, o, SlotsOf(h, Inside(h, v, "parts")), path + [Key("parts")], seen);
      case Invocation =>
        UnknownNone(fields, ["kind", "fn", "args"], path);
        CallWellFormed(h, o, v, path, seen);
    }
  }

  lemma ItemsWellFormed(h: Heap, o: Outside, slots: seq<Option<Raw>>, path: seq<Step>, seen: set<Ref>)
    requires Items(h, o, slots, 0, path, seen) == []
    ensures forall s | s in slots :: s.Some? && WellFormed(h, o, s.value, |h.Keys - seen|)
    decreases h.Keys - seen, 1
  {
    ItemsAll(h, o, slots, 0, path, seen);
    forall s | s in slots ensures s.Some? && WellFormed(h, o, s.value, |h.Keys - seen|) {
      var i :| 0 <= i < |slots| && slots[i] == s;
      assert ItemPasses(h, o, slots[i], i, path, seen);
      AcceptedIsWellFormed(h, o, s.value, path + [Index(i)], seen);
    }
  }

  lemma FieldsWellFormed(h: Heap, o: Outside, fields: seq<(string, Raw)>, path: seq<Step>, seen: set<Ref>)
    requires Fields(h, o, fields, 0, path, seen) == []
    ensures forall f | f in fields :: WellFormed(h, o, f.1, |h.Keys - seen|)
    decreases h.Keys - seen, 1
  {
    FieldsAll(h, o, fields, 0, path, seen);
    forall f | f in fields ensures WellFormed(h, o, f.1, |h.Keys - seen|) {
      var i :| 0 <= i < |fields| && fields[i] == f;
      assert FieldPasses(h, o, fields[i], path, seen);
      AcceptedIsWellFormed(h, o, f.1, path + [Key(f.0)], seen);
    }
  }

  lemma PartWellFormed(h: Heap, o: Outside, part: Raw, path: seq<Step>, seen: set<Ref>)
    requires Part(h, o, part, path, seen) == []
    ensures WellFormedPart(h, o, part, |h.Keys - seen|)
    decreases h.Keys - seen, 1
  {
    var fields := FieldsOf(h, part);
    if Inside(h, part, "kind") == Str("expr") {
      UnknownNone(fields, ["kind", "expr"], path);
      AcceptedIsWellFormed(h, o, Inside(h, part, "expr"), path + [Key("expr")], seen);
    } else {
      UnknownNone(fields, ["kind", "value"], path);
    }
  }

  lemma PartsWellFormed(h: Heap, o: Outside, slots: seq<Option<Raw>>, path: seq<Step>, seen: set<Ref>)
    requires Parts(h, o, slots, 0, path, seen) == []
    ensures forall s | s in slots :: s.Some? && WellFormedPart(h, o, s.value, |h.Keys - seen|)
    decreases h.Keys - seen, 2
  {
    forall s | s in slots ensures s.Some? && WellFormedPart(h, o, s.value, |h.Keys - seen|) {
      var i :| 0 <= i < |slots| && slots[i] == s;
      PartsSuffix(h, o, slots, 0, path, seen, i);
      PartsFrom(h, o, slots, i, path, seen);
      PartWellFormed(h, o, s.value, path + [Index(i)], seen);
    }
  }

  lemma CallWellFormed(h: Heap, o: Outside, v: Raw, path: seq<Step>, seen: set<Ref>)
    requires IsRecord(h, v) && Call(h, o, FieldsOf(h, v), path, seen) == []
    ensures IsArray(h, Inside(h, v, "args")) && RightArgs(h, o, Inside(h, v, "fn"), ArgsOf(h, v))
    ensures forall s | s in ArgsOf(h, v) :: s.Some? && WellFormed(h, o, s.value, |h.Keys - seen|)
    decreases h.Keys - seen, 2
  {
    var slots, here := ArgsOf(h, v), path + [Key("args")];
    var callback := CallbackArg(Inside(h, v, "fn").s, |slots|);
    ArgsAll(h, o, slots, 0, callback, here, seen);
    if callback.Some? {
      assert Arg(h, o, slots[|slots| - 1], |slots| - 1, callback, here + [Index(|slots| - 1)], seen) == [];
    }
    forall s | s in slots ensures s.Some? && WellFormed(h, o, s.value, |h.Keys - seen|) {
      var i :| 0 <= i < |slots| && slots[i] == s;
      assert Arg(h, o, slots[i], i, callback, here + [Index(i)], seen) == [];
      AcceptedIsWellFormed(h, o, s.value, here + [Index(i)], seen);
    }
  }

  /** The validator accepts exactly the well-formed expressions; on a finite heap one that is nested without
      end, as one on a cycle is, is not well formed for any depth. */
  lemma ValidatorExact(h: Heap, o: Outside, v: Raw)
    ensures Expr(h, o, v, [], {}) == [] <==> exists n :: WellFormed(h, o, v, n)
  {
    if Expr(h, o, v, [], {}) == [] {
      AcceptedIsWellFormed(h, o, v, [], {});
      assert WellFormed(h, o, v, |h.Keys - {}|);
    }
    if n :| WellFormed(h, o, v, n) {
      Accepted(h, o, v, [], {}, n);
    }
  }
}
