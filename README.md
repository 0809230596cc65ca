# Rule validator of the deterministic JVM sandbox

This project models `RuleValidator`, the visitor that applies validation rules
to a class as the sandbox's class traversal walks it. At each of four points
(the class, each method, each field, each instruction) the validator does four
things in order:

1. It checks the entity's scope with the configured filter. A class needs its
   name accepted. A method or field needs both the class name and the member
   reference accepted. An instruction needs the enclosing method's class name
   and reference accepted.
2. It builds a fresh rule context around the current analysis context.
3. It invokes every rule from its rule list that has the matching kind, in list
   order, on the entity. Class rules run on classes, member rules on methods
   and fields, and instruction rules on instructions.
4. It always hands control back to the outer traversal (the `super` call),
   passing its own arguments on unchanged.

Files:

- `rules.dfy` (module `Rules`) holds the tagged `Rule` datatype and `OfKind`,
  which picks out the entries of one kind in list order. `OfKind` stands in
  for `Processor.processEntriesOfType<T>`, which is not part of this model.
  Modelling assumption: because of that function's name and the way it is used
  at RuleValidator.kt lines 34, 47, 60 and 73, it is taken to run its block on
  each list entry of type T, in list order.
- `rule_validator.dfy` (module `RuleValidation`) holds the entities, the event
  log, and `VisitEvents`. `VisitEvents` is the pure specification of what one
  visit does. The `RuleValidator` class has a fixed `rules` sequence, a
  mutable `events` log and a counter of rule contexts built. Its four visit
  methods each scope-check and then run `ProcessEntriesOfType`, a `while` loop
  over `rules`. Each visit is proved to append exactly `VisitEvents` to the log.

How the model stands for the source:

- The filter `shouldBeProcessed` is a total function `string -> bool`, fixed
  at construction. It stands for the configuration's scope policy, whose logic
  is not part of this model. Every lemma holds for every such filter.
- A rule invocation is recorded as `Invoked(rule, context, target)` in
  `events`. The `super` call is recorded as `Continued(visit)`, where `visit`
  holds the visit's arguments. One log holding both kinds of event is what
  lets the model state that the `super` call comes after the rules.
- A rule context is `RuleContext(serial, analysis)`. `serial` is the number of
  contexts built before it, so a new context differs from every context
  already in the log.
- `super.visitClass`, `super.visitMethod` and `super.visitField` are modelled
  as returning the entity they are given. That makes each visit's result its
  argument.

## Model

| member | source | states |
|---|---|---|
| `Rules.OfKind` | djvm/src/main/kotlin/net/corda/sandbox/validation/RuleValidator.kt:34-36 | the selection of the rules of one kind is no longer than the list, and every selected entry has that kind and comes from the list |
| `Rules.OfKindAppend` | djvm/src/main/kotlin/net/corda/sandbox/validation/RuleValidator.kt:47-49 | selecting from a concatenation gives the selection from the first part followed by the selection from the second, so list order is kept |
| `Rules.OfKindCount` | djvm/src/main/kotlin/net/corda/sandbox/validation/RuleValidator.kt:60-62 | a rule occurs in the selection exactly as often as it is listed when it has the selected kind, and never otherwise |
| `Rules.OfKindMembership` | djvm/src/main/kotlin/net/corda/sandbox/validation/RuleValidator.kt:73-75 | a rule is selected if and only if it is listed and has the selected kind |
| `Rules.OfKindAt` | djvm/src/main/kotlin/net/corda/sandbox/validation/RuleValidator.kt:34-36 | the entry at list index i, when it has the kind, stands in the selection at position Rank(i), the number of earlier entries of that kind |
| `Rules.RankIncreases` | djvm/src/main/kotlin/net/corda/sandbox/validation/RuleValidator.kt:34-36 | a later list index has a strictly larger rank, so selected rules keep their relative order |
| `Rules.OfKindKeepsListOrder` | djvm/src/main/kotlin/net/corda/sandbox/validation/RuleValidator.kt:47-49 | two entries of the kind at list indices i < j appear in the selection at positions p < q |
| `RuleValidation.VisitInvokesSelection` | djvm/src/main/kotlin/net/corda/sandbox/validation/RuleValidator.kt:31-77 | the rules a visit invokes are exactly the rules of the visit's kind, in list order, when it is in scope, and none when it is out of scope |
| `RuleValidation.VisitEventsShape` | djvm/src/main/kotlin/net/corda/sandbox/validation/RuleValidator.kt:31-78 | a visit ends with one `super` call carrying its own arguments; every earlier event invokes a rule of the visit's kind on the visit's entity, with the visit's one context |
| `RuleValidation.VisitInvocationCount` | djvm/src/main/kotlin/net/corda/sandbox/validation/RuleValidator.kt:32-36 | an in-scope visit invokes each rule of its kind as often as it is listed (once for a rule listed once); no other rule is invoked, and an out-of-scope visit invokes nothing |
| `RuleValidation.VisitInvocationAt` | djvm/src/main/kotlin/net/corda/sandbox/validation/RuleValidator.kt:45-49 | in an in-scope visit, the rule at list index i (of the visit's kind) is the invocation at event position Rank(i), on the visit's entity with its context |
| `RuleValidation.MemberVisitNeedsBothInScope` | djvm/src/main/kotlin/net/corda/sandbox/validation/RuleValidator.kt:44-64 | a method or field visit invokes the member rules exactly when both the class name and the member reference are in scope, and nothing otherwise |
| `RuleValidation.InstructionGateIgnoresInstruction` | djvm/src/main/kotlin/net/corda/sandbox/validation/RuleValidator.kt:70-77 | the instruction gate depends on the enclosing method only: any instruction and emitter give the same scope answer and the same rules invoked, and the emitter reaches no rule |
| `RuleValidation.EmptyRuleListInvokesNothing` | djvm/src/main/kotlin/net/corda/sandbox/validation/RuleValidator.kt:23 | with the default empty rule list, a visit only continues the traversal |
| `RuleValidation.VisitDependsOnlyOnFilterAnswers` | djvm/src/main/kotlin/net/corda/sandbox/validation/RuleValidator.kt:32-36 | two filters that agree on the identifiers a visit consults give the same events: the outcome depends only on the list, the entity and those answers |
| `RuleValidation.RuleValidator.constructor` | djvm/src/main/kotlin/net/corda/sandbox/validation/RuleValidator.kt:22-26 | the rule list (empty by default) and the filter are fixed at construction; the log is empty and no context has been built |
| `RuleValidation.RuleValidator.NewRuleContext` | djvm/src/main/kotlin/net/corda/sandbox/validation/RuleValidator.kt:33 | the context wraps the current analysis context, is counted, and differs from every context already in the log |
| `RuleValidation.RuleValidator.ProcessEntriesOfType` | djvm/src/main/kotlin/net/corda/sandbox/validation/RuleValidator.kt:34-36 | the loop over the rule list appends one invocation of each rule of the kind, in list order, all on the same target with the same context |
| `RuleValidation.RuleValidator.Continue` | djvm/src/main/kotlin/net/corda/sandbox/validation/RuleValidator.kt:38 | the outer traversal is continued with the visit's arguments, as the last event |
| `RuleValidation.RuleValidator.VisitClass` | djvm/src/main/kotlin/net/corda/sandbox/validation/RuleValidator.kt:31-39 | the log grows by exactly the class visit's events, one context is built if and only if the class name is in scope, and the class is returned unchanged |
| `RuleValidation.RuleValidator.VisitMethod` | djvm/src/main/kotlin/net/corda/sandbox/validation/RuleValidator.kt:44-52 | the log grows by exactly the method visit's events (member rules only when class name and method reference are both in scope), and the method is returned unchanged |
| `RuleValidation.RuleValidator.VisitField` | djvm/src/main/kotlin/net/corda/sandbox/validation/RuleValidator.kt:57-65 | the log grows by exactly the field visit's events (member rules only when class name and field reference are both in scope), and the field is returned unchanged |
| `RuleValidation.RuleValidator.VisitInstruction` | djvm/src/main/kotlin/net/corda/sandbox/validation/RuleValidator.kt:70-78 | the log grows by exactly the instruction visit's events, gated on the enclosing method's class name and reference; the emitter is only passed on to the `super` call |

`RuleValidation.AcceptedAndRejectedMethods` walks one concrete case through
the class's contracts. The rules are a class rule R1 and a member rule R2,
over class `Foo` with methods `bar` and `baz`. The filter accepts only `Foo`
and `Foo.bar`. R1 runs once on `Foo` and R2 runs once on `bar`. The visit of
`baz` only continues the traversal.

## Left out

- The exception behaviour of `Processor.processEntriesOfType` is not modelled,
  because its body is not part of this model. The model claims neither that a
  rule's fault propagates nor that it is caught. Rules cannot fail here.
- What a rule checks, the messages it reports, and how they are formatted are
  not modelled. These live in the rule classes and the message sink. Each rule
  invocation is recorded as one event in place of whatever messages it adds to
  `analysisContext.messages`.
- The filter logic of `AnalysisConfiguration` (`shouldBeProcessed`) is not
  modelled, because it lives outside RuleValidator. The filter is an arbitrary
  total function fixed at construction.
- The internals of the outer traversal (`ClassAndMemberVisitor` and ASM's
  `ClassVisitor`) are not modelled: what `super.visit*` does, and how
  `currentAnalysisContext()` is kept. A `super` call is one recorded event, and
  the current analysis context is a field that no visit changes.
- The payloads of `EmitterModule` and `Instruction` are opaque values that are
  passed through unchanged.
- Concurrent processing and the thread-safety of the message sink are not
  modelled, because this code has neither.
- The `&&` in each scope check short-circuits in the source. Because the
  filter is a pure function here, whether the second identifier is consulted
  makes no observable difference, and the model does not record it.
