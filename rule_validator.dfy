/**
 * The rule validator: a visitor that, at each class, method, field and
 * instruction the outer class traversal reaches, checks the entity's scope,
 * builds a fresh rule context, runs every rule of the matching kind on the
 * entity in rule-list order, and then hands control back to the traversal.
 */
module RuleValidation {
  import opened Rules

  /** A parsed class. Only `name` is consulted; the rest is carried along untouched. */
  datatype Class = Class(name: string, superClass: string, interfaces: seq<string>)

  /** A method or field of a class; `reference` is the member's full reference identifier. */
  datatype Member = Member(className: string, memberName: string, signature: string, reference: string)

  /** One instruction of a method body; its payload is opaque here. */
  datatype Instruction = Instruction(payload: nat)

  /** The handle of the code-emission component; opaque, and only ever passed on. */
  datatype EmitterModule = EmitterModule(handle: nat)

  /** The state of the current analysis run (configuration and message sink), as an opaque handle. */
  datatype AnalysisContext = AnalysisContext(handle: nat)

  /** A rule context wraps the current analysis context; `serial` tells apart the contexts built in one run. */
  datatype RuleContext = RuleContext(serial: nat, analysis: AnalysisContext)

  /** What a rule is invoked on. */
  datatype Target = OnClass(cls: Class) | OnMember(mem: Member) | OnInstruction(instr: Instruction)

  /** One call of the outer traversal into the validator, with its arguments. */
  datatype Visit =
    | ClassVisit(clazz: Class)
    | MethodVisit(clazz: Class, member: Member)
    | FieldVisit(clazz: Class, member: Member)
    | InstructionVisit(enclosing: Member, emitter: EmitterModule, instruction: Instruction)

  /** What the validator does, in order: invoke a rule, or continue the outer traversal (the `super` call). */
  datatype Event = Invoked(rule: Rule, context: RuleContext, target: Target) | Continued(visit: Visit)

  /**
   * The scope check of a visit: the class name for a class; the class name and
   * the member reference for a method or field; the enclosing method's class
   * name and reference for an instruction.
   */
  predicate InScope(shouldBeProcessed: string -> bool, v: Visit)
  {
    match v
    case ClassVisit(c) => shouldBeProcessed(c.name)
    case MethodVisit(c, m) => shouldBeProcessed(c.name) && shouldBeProcessed(m.reference)
    case FieldVisit(c, f) => shouldBeProcessed(c.name) && shouldBeProcessed(f.reference)
    case InstructionVisit(m, _, _) => shouldBeProcessed(m.className) && shouldBeProcessed(m.reference)
  }

  /** The identifiers the scope check of a visit consults. */
  function ScopeIds(v: Visit): set<string>
  {
    match v
    case ClassVisit(c) => {c.name}
    case MethodVisit(c, m) => {c.name, m.reference}
    case FieldVisit(c, f) => {c.name, f.reference}
    case InstructionVisit(m, _, _) => {m.className, m.reference}
  }

  /** The kind of rule a visit runs. */
  function KindFor(v: Visit): Kind
  {
    match v
    case ClassVisit(_) => ClassKind
    case MethodVisit(_, _) => MemberKind
    case FieldVisit(_, _) => MemberKind
    case InstructionVisit(_, _, _) => InstructionKind
  }

  /** The entity a visit's rules are invoked on. */
  function TargetOf(v: Visit): Target
  {
    match v
    case ClassVisit(c) => OnClass(c)
    case MethodVisit(_, m) => OnMember(m)
    case FieldVisit(_, f) => OnMember(f)
    case InstructionVisit(_, _, i) => OnInstruction(i)
  }

  /** One invocation of each rule of `sel`, in order, all sharing `ctx` and `t`. */
  function Invocations(sel: seq<Rule>, ctx: RuleContext, t: Target): seq<Event>
  {
    seq(|sel|, n requires 0 <= n < |sel| => Invoked(sel[n], ctx, t))
  }

  /**
   * The events one visit adds: when the visit is in scope, one invocation of
   * every rule of the visit's kind, in list order, on the visit's entity and
   * with the context `ctx` built for it; then, in every case, the `super` call.
   */
  function VisitEvents(rules: seq<Rule>, shouldBeProcessed: string -> bool, ctx: RuleContext, v: Visit): seq<Event>
  {
    (if InScope(shouldBeProcessed, v) then Invocations(OfKind(rules, KindFor(v)), ctx, TargetOf(v)) else [])
    + [Continued(v)]
  }

  lemma InvocationsSnoc(sel: seq<Rule>, r: Rule, ctx: RuleContext, t: Target)
    ensures Invocations(sel + [r], ctx, t) == Invocations(sel, ctx, t) + [Invoked(r, ctx, t)]
  {
  }

  /** The rules invoked in a sequence of events, in order. */
  function RulesInvoked(events: seq<Event>): seq<Rule>
  {
    if events == [] then []
    else (if events[0].Invoked? then [events[0].rule] else []) + RulesInvoked(events[1..])
  }

  lemma {:induction false} RulesInvokedAppend(a: seq<Event>, b: seq<Event>)
    ensures RulesInvoked(a + b) == RulesInvoked(a) + RulesInvoked(b)
  {
    if a == [] {
      assert a + b == b;
    } else {
      assert (a + b)[0] == a[0];
      assert (a + b)[1..] == a[1..] + b;
      RulesInvokedAppend(a[1..], b);
    }
  }

  lemma {:induction false} RulesInvokedOfInvocations(sel: seq<Rule>, ctx: RuleContext, t: Target)
    ensures RulesInvoked(Invocations(sel, ctx, t)) == sel
  {
    if sel != [] {
      assert Invocations(sel, ctx, t) == [Invoked(sel[0], ctx, t)] + Invocations(sel[1..], ctx, t);
      RulesInvokedAppend([Invoked(sel[0], ctx, t)], Invocations(sel[1..], ctx, t));
      RulesInvokedOfInvocations(sel[1..], ctx, t);
      assert RulesInvoked([Invoked(sel[0], ctx, t)]) == [sel[0]] by {
        assert [Invoked(sel[0], ctx, t)][1..] == [];
      }
    }
  }

  /**
   * The rules a visit invokes are exactly the rules of the visit's kind, in
   * list order, when the visit is in scope, and none at all otherwise.
   */
  lemma VisitInvokesSelection(rules: seq<Rule>, shouldBeProcessed: string -> bool, ctx: RuleContext, v: Visit)
    ensures RulesInvoked(VisitEvents(rules, shouldBeProcessed, ctx, v))
         == if InScope(shouldBeProcessed, v) then OfKind(rules, KindFor(v)) else []
  {
    var inv := if InScope(shouldBeProcessed, v) then Invocations(OfKind(rules, KindFor(v)), ctx, TargetOf(v)) else [];
    RulesInvokedAppend(inv, [Continued(v)]);
    assert RulesInvoked([Continued(v)]) == [] by {
      assert [Continued(v)][1..] == [];
    }
    if InScope(shouldBeProcessed, v) {
      RulesInvokedOfInvocations(OfKind(rules, KindFor(v)), ctx, TargetOf(v));
    }
  }

  /**
   * A visit ends with exactly one `super` call, passing the visit's own
   * arguments on; every event before it is an invocation of a rule of the
   * visit's kind, on the visit's entity, with the visit's one context.
   */
  lemma VisitEventsShape(rules: seq<Rule>, shouldBeProcessed: string -> bool, ctx: RuleContext, v: Visit)
    ensures var e := VisitEvents(rules, shouldBeProcessed, ctx, v);
      |e| >= 1 && e[|e| - 1] == Continued(v) &&
      forall n :: 0 <= n < |e| - 1 ==>
        e[n].Invoked? && e[n].context == ctx && e[n].target == TargetOf(v) && KindOf(e[n].rule) == KindFor(v)
  {
  }

  /**
   * Each rule is invoked by an in-scope visit exactly as many times as it is
   * listed when it has the visit's kind (so once for a rule listed once), and
   * is never invoked otherwise.
   */
  lemma VisitInvocationCount(rules: seq<Rule>, shouldBeProcessed: string -> bool, ctx: RuleContext, v: Visit, r: Rule)
    ensures multiset(RulesInvoked(VisitEvents(rules, shouldBeProcessed, ctx, v)))[r]
         == if InScope(shouldBeProcessed, v) && KindOf(r) == KindFor(v) then multiset(rules)[r] else 0
  {
    VisitInvokesSelection(rules, shouldBeProcessed, ctx, v);
    OfKindCount(rules, KindFor(v), r);
  }

  /**
   * In an in-scope visit, the rule at index `i` of the list, when it has the
   * visit's kind, is invoked as event number `Rank(rules, KindFor(v), i)`;
   * ranks grow with the index (`Rules.RankIncreases`), so rules run in list order.
   */
  lemma VisitInvocationAt(rules: seq<Rule>, shouldBeProcessed: string -> bool, ctx: RuleContext, v: Visit, i: nat)
    requires InScope(shouldBeProcessed, v)
    requires i < |rules| && KindOf(rules[i]) == KindFor(v)
    ensures Rank(rules, KindFor(v), i) < |OfKind(rules, KindFor(v))|
    ensures VisitEvents(rules, shouldBeProcessed, ctx, v)[Rank(rules, KindFor(v), i)] == Invoked(rules[i], ctx, TargetOf(v))
  {
    OfKindAt(rules, KindFor(v), i);
  }

  /**
   * A method or field visit runs no rule unless both the class name and the
   * member reference are in scope; a member accepted on its own inside a
   * rejected class is not validated.
   */
  lemma MemberVisitNeedsBothInScope(rules: seq<Rule>, shouldBeProcessed: string -> bool, ctx: RuleContext, c: Class, m: Member)
    ensures RulesInvoked(VisitEvents(rules, shouldBeProcessed, ctx, MethodVisit(c, m)))
         == if shouldBeProcessed(c.name) && shouldBeProcessed(m.reference) then OfKind(rules, MemberKind) else []
    ensures RulesInvoked(VisitEvents(rules, shouldBeProcessed, ctx, FieldVisit(c, m)))
         == if shouldBeProcessed(c.name) && shouldBeProcessed(m.reference) then OfKind(rules, MemberKind) else []
  {
    VisitInvokesSelection(rules, shouldBeProcessed, ctx, MethodVisit(c, m));
    VisitInvokesSelection(rules, shouldBeProcessed, ctx, FieldVisit(c, m));
  }

  /**
   * An instruction visit is gated on the enclosing method alone: whatever the
   * instruction and the emitter, the same rules run, and the emitter reaches
   * no rule (it appears only in the final `super` call).
   */
  lemma InstructionGateIgnoresInstruction(
    rules: seq<Rule>, shouldBeProcessed: string -> bool, ctx: RuleContext,
    m: Member, e1: EmitterModule, i1: Instruction, e2: EmitterModule, i2: Instruction)
    ensures InScope(shouldBeProcessed, InstructionVisit(m, e1, i1)) == InScope(shouldBeProcessed, InstructionVisit(m, e2, i2))
    ensures RulesInvoked(VisitEvents(rules, shouldBeProcessed, ctx, InstructionVisit(m, e1, i1)))
         == RulesInvoked(VisitEvents(rules, shouldBeProcessed, ctx, InstructionVisit(m, e2, i2)))
    ensures var a := VisitEvents(rules, shouldBeProcessed, ctx, InstructionVisit(m, e1, i1));
            var b := VisitEvents(rules, shouldBeProcessed, ctx, InstructionVisit(m, e2, i1));
            |a| == |b| && a[..|a| - 1] == b[..|b| - 1]
  {
    VisitInvokesSelection(rules, shouldBeProcessed, ctx, InstructionVisit(m, e1, i1));
    VisitInvokesSelection(rules, shouldBeProcessed, ctx, InstructionVisit(m, e2, i2));
  }

  /** With an empty rule list a visit invokes nothing and only continues the traversal. */
  lemma EmptyRuleListInvokesNothing(shouldBeProcessed: string -> bool, ctx: RuleContext, v: Visit)
    ensures VisitEvents([], shouldBeProcessed, ctx, v) == [Continued(v)]
  {
  }

  /**
   * Determinism: what a visit does depends on the rule list, the entity and
   * the filter's answers for the identifiers it consults, and on nothing else.
   */
  lemma VisitDependsOnlyOnFilterAnswers(rules: seq<Rule>, f: string -> bool, g: string -> bool, ctx: RuleContext, v: Visit)
    requires forall id :: id in ScopeIds(v) ==> f(id) == g(id)
    ensures VisitEvents(rules, f, ctx, v) == VisitEvents(rules, g, ctx, v)
  {
  }

  /** No event of `events` holds a context numbered `built` or higher. */
  ghost predicate ContextsBelow(events: seq<Event>, built: nat)
  {
    forall n :: 0 <= n < |events| && events[n].Invoked? ==> events[n].context.serial < built
  }

  /**
   * The validator. The rule list is fixed at construction; each visit appends
   * to `events` the rules it invokes and its `super` call, and counts in
   * `contextsBuilt` the rule contexts it builds.
   */
  class RuleValidator {
    const rules: seq<Rule>
    /** The configured scope filter; the same identifier always gets the same answer. */
    const shouldBeProcessed: string -> bool
    /** The current analysis context, which rule contexts wrap; owned by the outer traversal. */
    var analysis: AnalysisContext
    var contextsBuilt: nat
    var events: seq<Event>

    /** Every rule context recorded so far was built before the next one to be built. */
    ghost predicate Valid()
      reads this
    {
      ContextsBelow(events, contextsBuilt)
    }

    /** The new state after visit `v`, from the state that had `events0` and `built0`. */
    ghost predicate Visited(v: Visit, events0: seq<Event>, built0: nat)
      reads this
    {
      events == events0 + VisitEvents(rules, shouldBeProcessed, RuleContext(built0, analysis), v)
      && contextsBuilt == built0 + (if InScope(shouldBeProcessed, v) then 1 else 0)
    }

    constructor (rules: seq<Rule> := [], shouldBeProcessed: string -> bool, analysis: AnalysisContext)
      ensures Valid()
      ensures this.rules == rules && this.shouldBeProcessed == shouldBeProcessed && this.analysis == analysis
      ensures events == [] && contextsBuilt == 0
    {
      this.rules := rules;
      this.shouldBeProcessed := shouldBeProcessed;
      this.analysis := analysis;
      contextsBuilt := 0;
      events := [];
    }

    /** Builds a fresh rule context wrapping the current analysis context. */
    method NewRuleContext() returns (ctx: RuleContext)
      requires Valid()
      modifies this`contextsBuilt
      ensures Valid()
      ensures ctx == RuleContext(old(contextsBuilt), analysis) && contextsBuilt == old(contextsBuilt) + 1
      ensures forall n :: 0 <= n < |events| && events[n].Invoked? ==> events[n].context != ctx
    {
      ctx := RuleContext(contextsBuilt, analysis);
      contextsBuilt := contextsBuilt + 1;
    }

    /** Invokes every rule of kind `k`, in list order, on `target` with context `ctx`. */
    method ProcessEntriesOfType(k: Kind, ctx: RuleContext, target: Target)
      requires Valid() && ctx.serial < contextsBuilt
      modifies this`events
      ensures Valid()
      ensures events == old(events) + Invocations(OfKind(rules, k), ctx, target)
    {
      var i := 0;
      while i < |rules|
        invariant 0 <= i <= |rules|
        invariant Valid()
        invariant events == old(events) + Invocations(OfKind(rules[..i], k), ctx, target)
      {
        ghost var done := OfKind(rules[..i], k);
        OfKindPrefixStep(rules, k, i);
        if KindOf(rules[i]) == k {
          InvocationsSnoc(done, rules[i], ctx, target);
          events := events + [Invoked(rules[i], ctx, target)];
        } else {
          assert done + [] == done;
        }
        i := i + 1;
      }
      assert rules[..i] == rules;
    }

    /** Hands control back to the outer traversal, passing the visit's arguments on unchanged. */
    method Continue(v: Visit)
      requires Valid()
      modifies this`events
      ensures Valid()
      ensures events == old(events) + [Continued(v)]
    {
      events := events + [Continued(v)];
    }

    method VisitClass(clazz: Class) returns (result: Class)
      requires Valid()
      modifies this`events, this`contextsBuilt
      ensures Valid() && Visited(ClassVisit(clazz), old(events), old(contextsBuilt))
      ensures result == clazz
    {
      ghost var invoked: seq<Event> := [];
      if shouldBeProcessed(clazz.name) {
        var context := NewRuleContext();
        ProcessEntriesOfType(ClassKind, context, OnClass(clazz));
        invoked := Invocations(OfKind(rules, ClassKind), context, OnClass(clazz));
      }
      assert events == old(events) + invoked;
      Continue(ClassVisit(clazz));
      assert events == old(events) + (invoked + [Continued(ClassVisit(clazz))]);
      result := clazz;
    }

    method VisitMethod(clazz: Class, member: Member) returns (result: Member)
      requires Valid()
      modifies this`events, this`contextsBuilt
      ensures Valid() && Visited(MethodVisit(clazz, member), old(events), old(contextsBuilt))
      ensures result == member
    {
      ghost var invoked: seq<Event> := [];
      if shouldBeProcessed(clazz.name) && shouldBeProcessed(member.reference) {
        var context := NewRuleContext();
        ProcessEntriesOfType(MemberKind, context, OnMember(member));
        invoked := Invocations(OfKind(rules, MemberKind), context, OnMember(member));
      }
      assert events == old(events) + invoked;
      Continue(MethodVisit(clazz, member));
      assert events == old(events) + (invoked + [Continued(MethodVisit(clazz, member))]);
      result := member;
    }

    method VisitField(clazz: Class, field: Member) returns (result: Member)
      requires Valid()
      modifies this`events, this`contextsBuilt
      ensures Valid() && Visited(FieldVisit(clazz, field), old(events), old(contextsBuilt))
      ensures result == field
    {
      ghost var invoked: seq<Event> := [];
      if shouldBeProcessed(clazz.name) && shouldBeProcessed(field.reference) {
        var context := NewRuleContext();
        ProcessEntriesOfType(MemberKind, context, OnMember(field));
        invoked := Invocations(OfKind(rules, MemberKind), context, OnMember(field));
      }
      assert events == old(events) + invoked;
      Continue(FieldVisit(clazz, field));
      assert events == old(events) + (invoked + [Continued(FieldVisit(clazz, field))]);
      result := field;
    }

    method VisitInstruction(enclosing: Member, emitter: EmitterModule, instruction: Instruction)
      requires Valid()
      modifies this`events, this`contextsBuilt
      ensures Valid() && Visited(InstructionVisit(enclosing, emitter, instruction), old(events), old(contextsBuilt))
    {
      ghost var invoked: seq<Event> := [];
      if shouldBeProcessed(enclosing.className) && shouldBeProcessed(enclosing.reference) {
        var context := NewRuleContext();
        ProcessEntriesOfType(InstructionKind, context, OnInstruction(instruction));
        invoked := Invocations(OfKind(rules, InstructionKind), context, OnInstruction(instruction));
      }
      assert events == old(events) + invoked;
      Continue(InstructionVisit(enclosing, emitter, instruction));
      assert events == old(events) + (invoked + [Continued(InstructionVisit(enclosing, emitter, instruction))]);
    }
  }

  /**
   * A class rule and a member rule over a class `Foo` with methods `bar` and
   * `baz`, where the filter accepts `Foo` and `Foo.bar` only: the class rule
   * runs once on `Foo`, the member rule once on `bar` and never on `baz`.
   */
  method AcceptedAndRejectedMethods()
  {
    var r1, r2 := ClassRule("R1"), MemberRule("R2");
    assert OfKind([r1, r2], ClassKind) == [r1] && OfKind([r1, r2], MemberKind) == [r2] by {
      assert [r1, r2][1..] == [r2];
      assert [r2][1..] == [];
    }
    var foo := Class("Foo", "java/lang/Object", []);
    var bar := Member("Foo", "bar", "()V", "Foo.bar");
    var baz := Member("Foo", "baz", "()V", "Foo.baz");
    var analysis := AnalysisContext(0);
    var validator := new RuleValidator([r1, r2], shouldBeProcessed := id => id == "Foo" || id == "Foo.bar", analysis := analysis);
    var c := validator.VisitClass(foo);
    assert validator.events == [Invoked(r1, RuleContext(0, analysis), OnClass(foo)), Continued(ClassVisit(foo))];
    var m1 := validator.VisitMethod(foo, bar);
    assert validator.events[2..] == [Invoked(r2, RuleContext(1, analysis), OnMember(bar)), Continued(MethodVisit(foo, bar))];
    var m2 := validator.VisitMethod(foo, baz);
    assert validator.events[4..] == [Continued(MethodVisit(foo, baz))];
    assert c == foo && m1 == bar && m2 == baz && validator.contextsBuilt == 2;
  }
}
