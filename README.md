# Iterator comprehensions, modelled in Dafny

A model of `iteratorcomprehensions`, a small Rust library. It provides the `iterator!`
comprehension macro, which turns

    iterator!( map for v1 in gen1 [if f1]* for v2 in gen2 [if f2]* ... )

into a chain of iterator adapters, together with the `Prepend1` and `Prepend2` adapters the
chain relies on. Each adapter yields the elements of an inner iterator in the last place of
a tuple whose earlier places are fixed outer values.

The project has six modules, one per file:

- `Stages` (`stages.dfy`): the adapters the expansion is built from.
  - `range(lo, hi)` is the integers of `[lo, hi)`.
  - `.map`, `.filter`, a chain of `.filter`s, and `.flat_map` are each modelled by the
    sequence they yield once fully drained.
  - The module also holds the membership and order algebra of these stages that the rest
    of the model relies on.
- `Prepend` (`prepend.dfy`): `Prepend1` and `Prepend2` as classes.
  - The inner iterator is the field `iter`, the sequence of elements it has still to
    yield.
  - The outer values are `const` fields, so no method can change them.
  - `Next` pops one element. `Collect` drains the adapter with a loop over `Next`, and is
    proved to yield `Prepend1Seq`/`Prepend2Seq` (the inner elements with the outer values
    put in front).
- `Macros` (`macros.dfy`): the macro's three arms, for one, two and three clauses.
  - Each arm is the same chain of stages the macro writes.
  - Membership lemmas say exactly which tuples each arm yields.
- `Comprehension` (`comprehension.dfy`): the same expansion for any number of clauses.
  - A clause is a generator plus its filters. Both read the environment: the sequence of
    values bound so far.
  - The general expansion yields exactly the admissible environments. Each level is
    generated from the levels before it, and each level passes its own filters.
  - Its order is lexicographic whenever every generator strictly increases.
  - A generator is only ever run on environments that survived the filters before it.
  - For one, two and three clauses, the general expansion equals the corresponding macro
    arm.
- `Scaling` (`scaling.dfy`): n unfiltered clauses over `range(0, d)` enumerate all d^n
  environments in lexicographic order, from all zeros to all d - 1. The six-clause
  instance over `range(0, 5)` is worked out.
- `Tests` (`tests.dfy`): each unit test of the crate, and the documented example, as a
  lemma about the arm it exercises.
  - Rust's truncating `%` and `/` are written out.
  - The thousand-triple test is proved from the structure of the pipeline rather than by
    enumeration.

The header comment of the macro (lib.rs:20-39) shows at most one `if` per clause. The macro
itself accepts any number, `$(if $filter:expr)*`, and applies them in order as a chain of
`.filter` calls. The model follows the macro, and a chain of filters is proved equal to one
filter by their conjunction. That header also describes n clauses, but the macro has arms
for one to three only. The general model covers any n, and it is proved to agree with the
macro for the arities the macro has.

## Model

| member | source | states |
|---|---|---|
| Stages.Range | src/iteratorcomprehensions/lib.rs:171 | `range(lo, hi)` yields hi - lo values when lo < hi and none otherwise; value i is lo + i |
| Stages.Map | src/iteratorcomprehensions/lib.rs:63 | `.map(f)` yields exactly one output per input, in order, output i being f of input i |
| Stages.Filter | src/iteratorcomprehensions/lib.rs:62 | `.filter(p)` never lengthens the sequence, and every element it yields satisfies p |
| Stages.InFilter | src/iteratorcomprehensions/lib.rs:62 | x survives `.filter(p)` iff x was in the input and p(x) holds |
| Stages.InFilterAll | src/iteratorcomprehensions/lib.rs:62 | x survives a chain of filters iff it was in the input and passes every filter of the chain |
| Stages.FilterAllIsConjunction | src/iteratorcomprehensions/lib.rs:62 | the chain `.filter(f1).filter(f2)...` is one filter by f1 AND f2 AND ..., in that order |
| Stages.FilterAppend | src/iteratorcomprehensions/lib.rs:62 | filtering keeps the original relative order: it distributes over concatenation |
| Stages.InMap | src/iteratorcomprehensions/lib.rs:63 | y is yielded by `.map(f)` iff y = f(x) for some input x |
| Stages.InFlatMap | src/iteratorcomprehensions/lib.rs:74 | y is yielded by `.flat_map(f)` iff y is in f(x) for some outer x |
| Stages.FlatMapAppend | src/iteratorcomprehensions/lib.rs:74 | `.flat_map` concatenates in outer order: everything from earlier outer elements precedes everything from later ones |
| Stages.FlatMapSkipsEmpty | src/iteratorcomprehensions/lib.rs:89 | an outer element whose inner sequence is empty contributes nothing, and enumeration carries on with the next |
| Stages.FlatMapCongruence | src/iteratorcomprehensions/lib.rs:74 | `.flat_map` consults its closure only on the outer elements it is given |
| Prepend.Prepend1Seq | src/iteratorcomprehensions/lib.rs:102-108 | draining a `Prepend1` over v1 yields one tuple (v1, x) per inner element x, same length, same order |
| Prepend.InPrepend1Seq | src/iteratorcomprehensions/lib.rs:102-108 | (a, x) is yielded iff a = v1 and x is an inner element |
| Prepend.Prepend1.constructor | src/iteratorcomprehensions/lib.rs:110-115 | `Prepend1::new(v1, it)` stores v1 and the inner iterator unchanged |
| Prepend.Prepend1.Next | src/iteratorcomprehensions/lib.rs:117-122 | `next` returns None iff the inner iterator is exhausted, and then changes nothing; otherwise it returns (val1, first inner element) and consumes exactly that element |
| Prepend.Prepend1.Collect | src/iteratorcomprehensions/lib.rs:117-122 | calling `next` until None yields exactly `Prepend1Seq(val1, it)` and leaves the inner iterator exhausted |
| Prepend.MakePrepend1 | src/iteratorcomprehensions/lib.rs:127-130 | `prepend1(v1, it)` builds a fresh adapter over v1 and it |
| Prepend.Prepend2Seq | src/iteratorcomprehensions/lib.rs:132-139 | draining a `Prepend2` over v1, v2 yields one triple (v1, v2, x) per inner element x, same length, same order |
| Prepend.InPrepend2Seq | src/iteratorcomprehensions/lib.rs:132-139 | (a, b, x) is yielded iff a = v1, b = v2 and x is an inner element |
| Prepend.Prepend2.constructor | src/iteratorcomprehensions/lib.rs:141-146 | `Prepend2::new(v1, v2, it)` stores v1, v2 and the inner iterator unchanged |
| Prepend.Prepend2.Next | src/iteratorcomprehensions/lib.rs:148-153 | `next` returns None iff the inner iterator is exhausted; otherwise (val1, val2, first inner element), consuming exactly that element |
| Prepend.Prepend2.Collect | src/iteratorcomprehensions/lib.rs:148-153 | draining yields exactly `Prepend2Seq(val1, val2, it)` |
| Prepend.MakePrepend2 | src/iteratorcomprehensions/lib.rs:155-162 | `prepend2(v1, v2, it)` builds a fresh adapter over v1, v2 and it |
| Macros.Arm1Members | src/iteratorcomprehensions/lib.rs:56-64 | the one-clause arm yields m(x) for exactly the generated x that pass every filter |
| Macros.Level2Members | src/iteratorcomprehensions/lib.rs:72-75 | the pairs reaching the map of the two-clause arm are exactly those (a, b) with a generated and passing the level-1 filters, b generated by gen2 run for that a, and (a, b) passing the level-2 filters |
| Macros.Arm2Members | src/iteratorcomprehensions/lib.rs:65-77 | the two-clause arm yields m(a, b) for exactly those pairs |
| Macros.Arm3Members | src/iteratorcomprehensions/lib.rs:78-94 | the three-clause arm yields m(a, b, c) for exactly the triples each level of which is generated from the levels before it and passes its own filters |
| Comprehension.Extend | src/iteratorcomprehensions/lib.rs:98-100 | the adapter for any arity: one environment e + [x] per value x, in order |
| Comprehension.Comprehend | src/iteratorcomprehensions/lib.rs:20-39 | the comprehension yields m of each surviving environment, one output per environment, in enumeration order |
| Comprehension.EnvsSnoc | src/iteratorcomprehensions/lib.rs:86-92 | adding a clause adds one `flat_map` over the surviving environments followed by that clause's filters |
| Comprehension.EnvsMembers | src/iteratorcomprehensions/lib.rs:30-37 | an environment is enumerated iff it binds one value per clause, each generated from the values before it, and each prefix passes the filters of the clause that completed it |
| Comprehension.ExpandAppend | src/iteratorcomprehensions/lib.rs:89-92 | environments grown from an earlier outer environment all precede those grown from a later one |
| Comprehension.ExpandSkipsEmpty | src/iteratorcomprehensions/lib.rs:89-92 | an outer environment whose generator yields nothing contributes nothing |
| Comprehension.GeneratorOnlyOnSurvivors | src/iteratorcomprehensions/lib.rs:88-91 | a level's generator is run only on environments that passed every earlier filter: changing it elsewhere changes nothing |
| Comprehension.FilterAllLexSorted | src/iteratorcomprehensions/lib.rs:90 | filtering keeps a lexicographically sorted enumeration sorted |
| Comprehension.NestLexSorted | src/iteratorcomprehensions/lib.rs:89 | `flat_map` of increasing inner generators over sorted outer environments is sorted |
| Comprehension.EnvsLexSorted | src/iteratorcomprehensions/lib.rs:86-93 | when every generator yields strictly increasing values (as `range` does), environments come in strict lexicographic order, outermost value slowest |
| Comprehension.Nest1Agrees | src/iteratorcomprehensions/lib.rs:74 | `prepend1(v1, gen2)` is the generic adapter on the environment [v1] |
| Comprehension.Nest2Agrees | src/iteratorcomprehensions/lib.rs:91 | `prepend2(v1, v2, gen3)` is the generic adapter on the environment [v1, v2] |
| Comprehension.Agrees1 | src/iteratorcomprehensions/lib.rs:56-64 | with one clause, the general expansion equals the first arm |
| Comprehension.Agrees2 | src/iteratorcomprehensions/lib.rs:65-77 | with two clauses, the general expansion equals the second arm |
| Comprehension.Agrees3 | src/iteratorcomprehensions/lib.rs:78-94 | with three clauses, the general expansion equals the third arm |
| Scaling.GridEnvs | src/iteratorcomprehensions/lib.rs:25-26 | n unfiltered clauses over `range(0, d)` yield d^n environments, the first all zeros, the last all d - 1 |
| Scaling.GridSecond | src/iteratorcomprehensions/lib.rs:25-26 | the second environment differs from the first only in the innermost value, which is 1 |
| Scaling.SixClauses | src/iteratorcomprehensions/lib.rs:25-26 | six clauses over `range(0, 5)`: 15625 environments in lexicographic order, first (0,0,0,0,0,0), second (0,0,0,0,0,1), last (4,4,4,4,4,4) |
| Tests.Rem | src/iteratorcomprehensions/lib.rs:183 | Rust's `%`: the remainder has the sign of the dividend and is smaller in size than the divisor |
| Tests.Quot | src/iteratorcomprehensions/lib.rs:202 | Rust's `/` truncates toward zero: quotient times divisor plus remainder is the dividend |
| Tests.Iterator1 | src/iteratorcomprehensions/lib.rs:170-173 | `i for i in range(0, 3)` yields [0, 1, 2] |
| Tests.Iterator1Map | src/iteratorcomprehensions/lib.rs:176-179 | `i + 1 for i in range(0, 3)` yields [1, 2, 3] |
| Tests.Iterator1Filter | src/iteratorcomprehensions/lib.rs:182-185 | `i for i in range(0, 3) if i % 2 == 1` yields [1] |
| Tests.Iterator1FilterMap | src/iteratorcomprehensions/lib.rs:188-191 | `i * 2 for i in range(0, 3) if i % 2 == 1` yields [2]: the filter runs before the map |
| Tests.Iterator2Map | src/iteratorcomprehensions/lib.rs:194-197 | `i * j for i in range(1, 3) for j in range(2, 4)` yields [2, 3, 4, 6], outer value slowest |
| Tests.Iterator2FilterMap | src/iteratorcomprehensions/lib.rs:200-205 | `i / j for i in range(6, 9) for j in range(1, 4) if i % j == 0` yields [6, 3, 2, 7, 8, 4] |
| Tests.Iterator2Example | src/iteratorcomprehensions/lib.rs:41-51 | the documented example yields (0, 0), (1, 1), (2, 0), (2, 2): the inner range depends on i and the filter sees both values |
| Tests.Iterator3Map | src/iteratorcomprehensions/lib.rs:216-221 | `i * j * k` over `[1,3) x [2,4) x [3,5)` yields [6, 8, 9, 12, 12, 16, 18, 24] |
| Tests.Iterator3FilterMap | src/iteratorcomprehensions/lib.rs:224-230 | of the thousand triples over `[0,10)^3`, only (1, 1, 1) passes, giving [3] |
| Tests.Iterator3Empty | src/iteratorcomprehensions/lib.rs:233-238 | `i * j * k for i in range(0, 2) for j in range(0, i) for k in range(0, 1)` yields [0]: the empty inner range for i = 0 contributes nothing |

## Left out

- Macro parsing, hygiene and binder names are not modelled. The clause list is taken as already parsed, and each binder is a position in a tuple or environment. Rejecting a malformed clause list happens before expansion.
- Laziness is not modelled. Each stage is the sequence it yields once drained. Pull-by-pull behaviour is modelled only for `Prepend1`/`Prepend2`, one element per `next`.
- Inner iterators are finite sequences. Infinite generators are not modelled.
- `Clone` and ownership are not modelled. Outer values are immutable copies (`const` fields).
- Closures are total, pure functions. A Rust closure that panics or has side effects is not modelled.
- The general n-clause model binds values of one type `V` at every level. The macro allows a different type per level. Its agreement lemmas cover the arms whose levels share one type.
- Comprehension.EnvsLexSorted: the lexicographic theorem needs every generator to yield strictly increasing integers, as `range` does. For arbitrary generators, the order is stated as outer-slowest concatenation (`ExpandAppend`, `FlatMapAppend`).
- Tests.Rem: Rust panics on a zero divisor; here the result is 0, and no test divides by zero.
- Tests.Quot: the same zero-divisor convention as `Rem`.
- Machine-integer width of the tests' `int` is not modelled; integers are unbounded.
- The demo programs `examples/simple.rs` and `src/examples/main.rs` are not part of this model. They only print.
- Crate attributes and the `use iteratorcomprehensions = prepend` alias in the tests (lib.rs:8-13, lib.rs:167) are packaging, not behaviour.
- Rebuilding a pipeline from the same clause list gives the same output. This holds by construction, since every stage is a function.
