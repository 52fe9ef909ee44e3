# A Dafny model of the V2 complexity analyzer

The analyzer reads a Python module and estimates the time and space complexity
of every function in it. It walks the syntax tree once, in `AnalyzerV2`. It
also keeps a per-function breakdown of the decisions it made. An advisor then
turns the finished report into advice lines.

This project models:

- **The complexity algebra** (`complexity_term.dfy`, module `Complexity`).
  - `ComplexityTerm` is the class `n^power * (log n)^logPower`.
  - `+` is sequential composition: it keeps the dominant term.
  - `*` is nesting: it adds the exponents.
  - `str` is the canonical `O(...)` rendering.
- **Text helpers** (`strings.dfy`, module `Strings`): Python's `str(k)` for a
  non-negative int, and the substring test `p in s`. The advisor relies on
  both.
- **The syntax tree** (`syntax_tree.dfy`, module `SyntaxTree`).
  - It keeps the node kinds the visitor distinguishes: `FunctionDef`, `Call`,
    `For`, `While`, `Assign`, `Name`, integer constants, `BinOp`, and list,
    list-comprehension, dict and set displays.
  - Every other node is `Other`, with its children listed in field order.
- **The visitor** (`analyzer.dfy`).
  - Module `Engine` holds the engine state: the function table, the records,
    the current function, the loop stack and the global log.
  - It also holds one function per `visit_*` method and helper: `_log`,
    `_add_space`, `_analyze_loop_bound` and the two halves of `_handle_loop`.
  - `Visit` dispatches the way `ast.NodeVisitor.visit` does. Node kinds
    without a `visit_*` method are visited generically.
  - Module `Traversal` proves properties of whole traversals.
- **The `recursion_stack` set** (`recursion_stack.dfy`, module
  `RecursionStack`).
  - It is a set, so a definition nested inside a definition of the same
    name (`def f():` around `def f():`) removes the shared entry early. The
    outer `remove` then raises `KeyError`, and `analyze` does not catch it.
  - `Track` replays the set operations in visiting order.
  - Lemmas show it raises exactly when some definition nests one of its own
    name. `Report.Analyze` returns `KeyErrorRaised` in exactly that case.
- **The aggregation in `analyze`** (`report.dfy`, module `Report`).
  - A report has one entry per function, in table order.
  - The overall time and space are `+`-folds over all functions, starting
    from O(1).
- **`generate_v2_advice`** (`advisor.dfy`, module `Advisor`).
  - It applies the two global substring rules and the per-function recursion
    rule.
  - Lemmas connect these string tests back to the complexity classes the
    analyzer computes. For example:
    - the time warning fires exactly when the largest power's decimal form
      starts with 2 or 3;
    - the space warning fires exactly when some function was charged space.
- **The sample programs of `v2_checks.py`** (`fixtures.dfy`, module
  `Fixtures`).
  - These are hand-built trees.
  - Lemmas derive the figures the analyzer assigns each of them from a
    statement-by-statement reference semantics: `Effect`, `Predict`,
    `PredictedFigures`.
  - `quadratic_loop` iterates over `range(n*n)`. The sample's comment expects
    O(n^2). The bound heuristic only treats `**` as quadratic, so the
    function gets O(n). `QuadraticLoopFigures` states what the code computes.

Modelling choices:

- **The function table.** It is a sequence of `(name, id)` entries pointing
  into a store of records. The store is append-only, so a record left behind
  when a name is redefined still exists.
  - `Put` mirrors Python's `dict` assignment: a new name goes last; a
    redefined name keeps its position.
- **Recursion.** The visitor multiplies the time of a recursive function by
  `ComplexityTerm(1)`. `LeaveFunction` writes this as
  `Term(power + 1, logPower)`, which `Complexity.MulLinear` proves equal to
  `Mul(time, Linear)`.
- **Log lines.** They are tagged values (`LogLine`) rather than formatted
  text. `MentionsRecursive` picks out the two kinds whose text contains
  "Recursive": the recursive-call line and the recursion-adjustment line.
- **Truthiness of `FunctionAnalysis`.** A record is always truthy in
  `if ctx:`, because it defines neither `__bool__` nor `__len__`. So "is
  there a context" is modelled as `current.Some?`.
- **Advice.** Each advice line is a constructor of `Advice`. It carries the
  figure or function name it interpolates.

## Model

| member | source | states |
|---|---|---|
| Complexity.Add | analyzer/analyzer.py:9-16 | The sum is one of its two operands and dominates both in (power, log power) order, i.e. it is their least upper bound. |
| Complexity.AddPower | analyzer/analyzer.py:9-16 | The power of a sum is the larger power. With different powers, the operand with the larger power is returned whole, log factor included. With equal powers, the larger log power is kept. |
| Complexity.AddCommutative | analyzer/analyzer.py:9-16 | Sequential composition does not depend on operand order. |
| Complexity.AddAssociative | analyzer/analyzer.py:9-16 | Sequential composition can be regrouped, so folding statements in any grouping gives the same class. |
| Complexity.AddIdempotent | analyzer/analyzer.py:9-16 | Composing a class with itself gives the same class. |
| Complexity.AddIdentity | analyzer/analyzer.py:9-16 | O(1), the accumulators' start value, is a two-sided identity of `+`. |
| Complexity.AddAbsorbs | analyzer/analyzer.py:9-16 | `a + b` is `b` exactly when `a` is dominated by `b`. |
| Complexity.MulCommutative | analyzer/analyzer.py:18-20 | Nesting does not depend on operand order. |
| Complexity.MulAssociative | analyzer/analyzer.py:18-20 | Nesting can be regrouped, so a loop chain's product does not depend on the order its factors are taken. |
| Complexity.MulIdentity | analyzer/analyzer.py:18-20 | Nesting under O(1) changes nothing. |
| Complexity.MulMonotone | analyzer/analyzer.py:18-20 | Nesting two classes inside a common factor preserves their order. |
| Complexity.MulDistributes | analyzer/analyzer.py:9-20 | Nesting distributes over sequential composition. |
| Complexity.MulLinear | analyzer/analyzer.py:18-20 | Multiplying by O(n) raises the power by exactly one and keeps the log power. This justifies the recursion adjustment's form. |
| Complexity.RenderShape | analyzer/analyzer.py:22-36 | The rendering is "O(1)" for the constant class. Otherwise it is "O(" + the present factors (`n` / `n^k`, then `log n` / `(log n)^k`) joined by " * " + ")". |
| Complexity.RenderPowerOnly | analyzer/analyzer.py:22-36 | A log-free class renders as just its power factor in `O(...)`. |
| Complexity.RenderLogOnly | analyzer/analyzer.py:22-36 | A power-free, non-constant class renders as just its log factor in `O(...)`. |
| Complexity.RenderBoth | analyzer/analyzer.py:22-36 | A class with both factors renders them in order, separated by " * ". |
| Complexity.RenderExamples | analyzer/analyzer.py:22-36 | Reference renderings: O(1), O(n), O(n^2), O(log n). |
| Complexity.RenderLinearLogExample | analyzer/analyzer.py:22-36 | `n * log n` renders as "O(n * log n)". |
| Complexity.RenderPowersExample | analyzer/analyzer.py:22-36 | Raised factors render with `^` and a parenthesised log: "O(n^2 * (log n)^3)". |
| Strings.NatToString | analyzer/analyzer.py:29 | `str(k)` is a non-empty string of decimal digits that denotes exactly `k`, with no leading zero except in "0" itself. |
| Strings.NatToStringHead | analyzer/analyzer.py:29 | The first character of `str(k)` is `k`'s most significant digit. |
| Engine.RecursionLineAt | analyzer/advisor.py:26 | The breakdown has a recursion line iff some line at some index mentions recursion (Python's `any`). |
| Engine.Put | analyzer/analyzer.py:70 | Afterwards the table's names are the old names plus the new one. Every entry is either the new entry or an old one. Names stay distinct. |
| Engine.PutFinds | analyzer/analyzer.py:70 | After the assignment the name designates the new record. |
| Engine.PutKeepsOthers | analyzer/analyzer.py:70 | Every other name still designates its old record. |
| Engine.PutKeepsPositions | analyzer/analyzer.py:70 | Redefining a name keeps its position in iteration order, as Python dict assignment does. |
| Engine.PutAppendsNew | analyzer/analyzer.py:70 | A new name goes to the end of iteration order. |
| Engine.Log | analyzer/analyzer.py:59-66 | The line is appended to the current record's breakdown when there is one, and to the global log otherwise. No figure, table entry or context changes, and every other record is exactly as it was. |
| Engine.NoteRecursiveCall | analyzer/analyzer.py:89-93 | The current function is flagged recursive. No time figure changes, and every other record is exactly as it was. |
| Engine.AddSpace | analyzer/analyzer.py:174-178 | At top level the state is unchanged. Inside a function that function's space becomes O(n). No time figure changes, and every other record is exactly as it was. |
| Engine.ChargeSpace | analyzer/analyzer.py:156-170 | Inside a function, the space becomes O(n) when the value is a list, list comprehension, dict, set, or a product with a list display on either side. Otherwise the state is unchanged. Records other than the current one are never touched. |
| Engine.BoundHeuristic | analyzer/analyzer.py:96-115 | The loop bound is constant iff the iterable is `range(...)` whose last positional argument is an int literal. It is quadratic iff that argument is a `**` expression. Every other `for` (non-range iterable, `range()` with no arguments, any other stop) is linear. |
| Engine.ProductStopIsLinear | analyzer/analyzer.py:104-113 | `range(n*n)` is classified linear: a product is not a power. |
| Engine.Chain | analyzer/analyzer.py:147-150 | The chain's power is the bound's power plus the powers of every enclosing loop. The same holds for log powers. |
| Engine.EnterLoop | analyzer/analyzer.py:124-131 | The bound is pushed on the loop stack. No figure changes. Only the current record's breakdown gains a line: every other record is exactly as it was, and at top level no record changes at all. |
| Engine.ExitLoop | analyzer/analyzer.py:141-154 | The bound is popped. The record that was current when the loop was entered gets time power max(old, bound + enclosing powers). Every other record's time is unchanged, and a record that is neither that context nor the current one is exactly as it was. At top level the store is untouched. |
| Engine.EnterFunction | analyzer/analyzer.py:68-71 | A fresh O(1)/O(1) record is appended and becomes current, and the name now designates it. Every existing record is exactly as it was, and every other name designates the record it did before. |
| Engine.LeaveFunction | analyzer/analyzer.py:78-85 | A function flagged recursive gets one more power of n in time and O(n) space. Otherwise only the context is cleared. Either way the context ends as none, and every other record is exactly as it was. |
| Engine.Visit | analyzer/analyzer.py:68-178 | Visiting any node keeps the state well formed. No record is lost, no figure shrinks, and no recursion flag is cleared. The loop stack ends as found. The context is unchanged unless a definition inside reset it to none. Every record that existed before, other than the current one, is exactly as it was. |
| Engine.VisitFunctionDef | analyzer/analyzer.py:68-85 | A definition opens a fresh record, the next one in the store, carrying its name. Afterwards the name is in the function table, and the context is none, even inside an enclosing definition. Every record that existed before, the enclosing one included, is exactly as it was. |
| Engine.VisitCall | analyzer/analyzer.py:87-94 | A call keeps the engine's invariants and leaves the loop stack as found. It changes no existing record other than the current one. |
| Engine.VisitFor | analyzer/analyzer.py:117-154 | A `for` loop keeps the engine's invariants and pops exactly what it pushed. It changes no existing record other than the current one. |
| Engine.VisitWhile | analyzer/analyzer.py:120-154 | A `while` loop keeps the engine's invariants and pops exactly what it pushed. It changes no existing record other than the current one. |
| Engine.VisitAssign | analyzer/analyzer.py:156-172 | An assignment keeps the engine's invariants and leaves the loop stack as found. It changes no existing record other than the current one. |
| Traversal.TopLevelCodeChargesNothing | analyzer/analyzer.py:152-178 | Top-level code without definitions leaves the store of records and the function table exactly as they were, and the context empty: its calls, loops and allocations charge no one. |
| Traversal.TopLevelSeqChargesNothing | analyzer/analyzer.py:152-178 | The same for a sequence of top-level statements. |
| Traversal.ClosedRecordsFinal | analyzer/analyzer.py:68-85 | A record is final once its definition's visit has ended. Whatever follows at top level, later sibling definitions included, leaves every existing record exactly as it is. |
| Traversal.DefinitionKeepsEarlier | analyzer/analyzer.py:68-85 | Visiting a definition, at any depth, never changes a record that already existed. |
| Traversal.ForLoopContributes | analyzer/analyzer.py:123-154 | Afterwards a `for` loop inside a function leaves that function's time power at least the bound's power plus every enclosing loop's power. |
| Traversal.WhileLoopContributes | analyzer/analyzer.py:120-154 | A `while` loop inside a function leaves its time power at least one plus every enclosing loop's power. |
| Traversal.SelfCallFlagsRecursion | analyzer/analyzer.py:87-94 | A call of the current function by its bare name flags it recursive. |
| Traversal.OtherCallFlagsNothing | analyzer/analyzer.py:87-94 | An argument-free call of any other name changes nothing at all. |
| Traversal.DefinitionRegisters | analyzer/analyzer.py:68-85 | Afterwards the visited definition's name is in the function table, and the context is none. |
| Traversal.QuietUnchanged | analyzer/analyzer.py:87-94 | Inside a function, an expression with no loop, assignment, definition or self-call leaves the state exactly as it was. |
| Traversal.ExitLoopKeepsSpace | analyzer/analyzer.py:141-154 | Leaving a loop changes no space figure and no recursion flag. |
| Traversal.NoteRecursiveCallKeepsSpace | analyzer/analyzer.py:89-93 | Noting a recursive call changes no space figure. |
| Traversal.EmptyLoopInFunction | analyzer/analyzer.py:123-154 | A loop with a quiet body sets the function's time to the larger of its old power and the chain's power. Space, flags, context and stack are unchanged. |
| Report.Overall | analyzer/analyzer.py:205-209 | The fold of `+` from O(1) yields the largest term in asymptotic order: it dominates every term and is one of them, or O(1) when there are none. |
| Report.OverallOrderIndependent | analyzer/analyzer.py:205-209 | The overall figure depends only on which terms occur, not on declaration order or repetition. |
| Report.OverallSpace | analyzer/analyzer.py:206-209 | The overall space is O(1) or O(n). It is O(n) exactly when some function in the table was charged space. |
| Report.BuildReport | analyzer/analyzer.py:196-216 | There is one entry per table name, in table order, with that record's rendered figures and breakdown. The overall time and space render the folds over all records; the space is therefore "O(1)" or "O(n)". The global log is passed through. |
| Report.Run | analyzer/analyzer.py:186 | Visiting a whole module from a fresh engine ends well formed with an empty loop stack. |
| Report.Analyze | analyzer/analyzer.py:180-216 | A parse failure yields exactly the error result, carrying the parser's message. A parsed module raises `KeyError` exactly when some definition nests, at any depth, a definition of its own name. Any other parsed module yields the report built from a fresh traversal of its statements, so its function names are distinct and its overall space is "O(1)" or "O(n)". |
| RecursionStack.TrackMeaning | analyzer/analyzer.py:51-84 | Visiting a node raises `KeyError` from `recursion_stack.remove` exactly when some definition in it nests one of its own name. Otherwise the visit removes from the set exactly the names defined in the node. |
| RecursionStack.TrackSeqMeaning | analyzer/analyzer.py:51-84 | The same for a sequence of sibling nodes visited in order. |
| RecursionStack.ModuleRaisesIff | analyzer/analyzer.py:51-84 | Over a whole module, starting from the empty set, the visit raises exactly when some definition nests one of its own name. Otherwise the set ends empty. |
| RecursionStack.NestingExamples | analyzer/analyzer.py:68-85 | `def f` directly around `def f`, or around a class with a method `f`, raises `KeyError('f')`. `def f` around `def g` does not raise. |
| Report.ScriptWithoutFunctions | analyzer/analyzer.py:188-216 | A module without definitions raises nothing and yields an empty function table and O(1) overall figures. |
| Advisor.FunctionAdvice | analyzer/advisor.py:19-29 | Only per-function advice is produced. A function gets a recursion note iff some line of its breakdown mentions recursion. It gets a memoization hint iff, in addition, its time shows "n^2". There are at most two lines per function. The lines for each entry form one block, the blocks follow table order with nothing between them, and every memoization hint comes right after the recursion note for the same function. |
| Advisor.AdviceFor | analyzer/advisor.py:2-31 | The three time lines appear, first and in order, exactly when the time shows "n^2" or "n^3". The three space lines (warning, lists-in-loops hint, generator hint) come next exactly when the space shows "n". Then come the per-function lines in table order, and nothing else: the length is fixed by these three parts. Recursion notes and memoization hints follow the per-function rule, each hint right after its note. |
| Advisor.GenerateAdvice | analyzer/advisor.py:1-31 | A missing overall figure counts as "O(1)". A missing function table yields no per-function advice. The list has the same layout as in `AdviceFor`: time lines, then space lines, then per-function lines in table order. Recursion notes and memoization hints follow the per-function rule, each hint right after its note. |
| Advisor.NoAdviceWithoutReport | analyzer/advisor.py:4-19 | The error dictionary, like a dictionary without report keys, yields no advice. |
| Advisor.MarkerInRender | analyzer/advisor.py:8 | `n^d` occurs in a rendered class exactly when its power is at least 2 and its decimal form starts with digit `d`. |
| Advisor.TimeWarningOnRendered | analyzer/advisor.py:8-11 | The time warning fires on a rendered class exactly when its power is at least 2 and starts with the digit 2 or 3. |
| Advisor.QuadraticMarkerOnRendered | analyzer/advisor.py:28 | The memoization test fires on a rendered time exactly when its power is at least 2 and starts with the digit 2. |
| Advisor.SpaceWarningOnRendered | analyzer/advisor.py:13-16 | The space warning fires on a rendered class exactly when it is not O(1). |
| Advisor.TimeWarningExamples | analyzer/advisor.py:8-11 | O(n^2), O(n^3 * log n) and O(n^21) warn. O(n^4) and O(n * (log n)^5) do not. |
| Advisor.TimeAdviceOnAnalysis | analyzer/advisor.py:8-11 | On an analysed report the time warning fires iff the largest function time has power at least 2 starting with the digit 2 or 3. |
| Advisor.SpaceAdviceOnAnalysis | analyzer/advisor.py:13-16 | On an analysed report the space warning fires iff some function was charged space. |
| Advisor.NotedInReport | analyzer/advisor.py:26 | In a built report, a function's breakdown has a recursion line iff its record is flagged recursive. |
| Advisor.NotesOnAnalysis | analyzer/advisor.py:20-27 | On an analysed report a function gets a recursion note iff its record was flagged recursive. |
| Fixtures.BodyEffect | analyzer/analyzer.py:117-172 | Visiting a recognised function body moves the function's figures exactly as the statement-by-statement reference semantics predicts: a loop raises time to its chain's power, an allocation sets O(n) space, anything quiet does nothing. |
| Fixtures.PredictedFigures | analyzer/analyzer.py:68-85 | A module holding one function with a recognised body ends with exactly the predicted figures, unflagged, as the only table entry. |
| Fixtures.GuardedRecursionFigures | analyzer/analyzer.py:78-85 | A function whose body is a quiet guard and `return x op f(args)` ends with O(n) time and O(n) space, flagged recursive. |
| Fixtures.ConstantLoopFigures | v2_checks.py:1-6 | `constant_loop` ends with O(1) time and O(1) space. |
| Fixtures.LinearLoopFigures | v2_checks.py:8-13 | `linear_loop` ends with O(n) time and O(1) space. |
| Fixtures.QuadraticLoopFigures | v2_checks.py:15-18 | `quadratic_loop` ends with O(n) time, not O(n^2): the `range(n*n)` stop is a product. |
| Fixtures.NestedLoopsFigures | v2_checks.py:20-25 | `nested_loops` ends with O(n^2) time and O(1) space. |
| Fixtures.FactorialFigures | v2_checks.py:27-31 | `factorial` ends with O(n) time and O(n) space, flagged recursive. |
| Fixtures.SpaceWasterFigures | v2_checks.py:33-38 | `space_waster` ends with O(n) time and O(n) space. |
| Fixtures.ComplexAlgoFigures | v2_checks.py:40-53 | `complex_algo` ends with O(n^2) time and O(1) space: the costliest loop decides. |

## Left out

- Parsing (`ast.parse`) is outside the model. Its outcome is a parameter: a tree, or a failure message that `Analyze` passes through. The "Syntax Error: " prefix the source adds is not modelled.
- `recursion_stack` is modelled separately from the rest of the engine state, in module `RecursionStack`. It is written (a name added on entry, removed on exit) but read only by its own `remove`, so it influences the result only by raising `KeyError`.
- An uncaught `KeyError` is the result variant `KeyErrorRaised`. The partial traversal state at the moment of the raise is not modelled: the exception discards it. The advisor is never reached in that case, so `Advisor.ViewOf` does not take that variant.
- Log text is left out: line numbers, indentation and message wording. Lines are tagged values. The nesting level is kept as a number.
- Advice wording and emoji are left out. Each line is a constructor carrying what it interpolates.
- `main.py` and `check_complexity.py` are left out. They are the command-line shell and file I/O around the core.
- Async definitions and loops, `AugAssign` and `AnnAssign` have no `visit_*` method, so the source visits them generically. They are modelled as `Other`.
- Non-integer constants are `Other`. Boolean literals count as integer constants, as `isinstance(True, int)` does in Python. A negative literal such as `-5` is a unary minus around a literal in Python's tree, so it is `Other([IntConst(5)])`, and a `range(-5)` loop is linear, as in the source.
- The children of a `FunctionDef` (arguments, decorators, return annotation) are one sequence, in field order. The `else` blocks of `For` and `While` are folded into their bodies. Only the order in which children are visited matters to the analyzer.
- Each sample of `v2_checks.py` is modelled as a module holding that one definition. The whole file is not analysed as one module.
- Engine.Visit: its contract states the invariants every visit keeps and the records it leaves alone, not the figures a visit produces. Those are stated per node kind by the `Traversal` lemmas, and for recognised function bodies by `Fixtures.PredictedFigures`.
- Fixtures.PredictedFigures: it covers only bodies built from quiet statements, quiet `for` loops, a `for` loop around one quiet `for` loop, and assignments of quiet parts, in a module's only function. Other bodies (a `while` in the body, deeper nesting, self-calls among other statements) are covered only by the general lemmas.
- Traversal.ForLoopContributes: it states a lower bound on the function's time power after a loop, not its exact value. The exact value for quiet bodies is `Traversal.EmptyLoopInFunction`.
- Traversal.WhileLoopContributes: it states a lower bound, as `ForLoopContributes` does.
- Complexity.Mul has no `ensures` of its own. Its laws are the lemmas `MulCommutative`, `MulAssociative`, `MulIdentity`, `MulMonotone`, `MulDistributes` and `MulLinear`.
