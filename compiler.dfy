/**
 * The transition-expression compiler of crm/automaton/compiler.py.
 *
 * A transition expression is "WFF / COUNTER_STATES", e.g. "EVENT_A and not EVENT_B / (Z,NZ)".
 * The Python code rewrites the WFF with regular expressions into Python source and `exec`s it;
 * here the WFF is tokenized and parsed into a `Formula`, the counter states become a
 * `seq<CounterTest>`, and both are given an evaluator that fails where the generated Python
 * would raise.
 */
module Compiler {
  import opened Wrappers
  import opened Text

  /** The event part of an expression: Python `and`/`or`/`not` over propositions. */
  datatype Formula =
    | True
    | Prop(name: string)
    | Not(arg: Formula)
    | And(left: Formula, right: Formula)
    | Or(left: Formula, right: Formula)

  /** One counter-state entry: "Z", "NZ" or "-". */
  datatype CounterTest = Zero | NonZero | Any

  /** A compiled transition formula: the event formula, then the counter pattern. */
  datatype Guard = Guard(wff: Formula, pattern: seq<CounterTest>)

  datatype CompileError =
    | EmptyExpression
    | ParenthesesWithoutSeparator
    | CounterPatternWithoutSeparator
    | MalformedCounterStates
    | InvalidCounterEntry(entry: string)
    | SyntaxError

  /** What the generated Python raises while it runs: `AttributeError` for a member the enum
      lacks or for a name the rewrite split (`GarbledName`), `IndexError` for a counter. */
  datatype EvalError =
    | UnknownProposition(name: string)
    | GarbledName(name: string)
    | CounterIndexOutOfRange(index: nat)

  // ---------------------------------------------------------------------------------------
  // Splitting an expression into its event text and its counter text.

  /** `_extract_wff`: the event text of an expression. */
  function ExtractWff(expr: string): (r: Result<string, CompileError>)
    ensures expr == "" ==> r == Err(EmptyExpression)
    ensures r.Err? <==> expr == "" || ('/' !in expr && '(' in expr && ')' in expr)
    ensures r.Ok? ==> '/' !in r.value
  {
    if |expr| == 0 then Err(EmptyExpression)
    else if '/' !in expr && '(' in expr && ')' in expr then Err(ParenthesesWithoutSeparator)
    else
      var e := if '/' !in expr then expr + " /" else expr;
      Ok(Strip(Split(e, '/')[0]))
  }

  /** The pattern `\((\s*(Z|NZ|-)\s*,)*\s*(Z|NZ|-)\s*\)` occurs somewhere in `s`. */
  predicate CounterPatternOccurs(s: string) {
    exists i, j :: 0 <= i < j < |s| && s[i] == '(' && s[j] == ')' && IsPatternBody(s[i + 1..j])
  }

  /** Comma-separated entries, each "Z", "NZ" or "-" up to surrounding whitespace. */
  predicate IsPatternBody(b: string) {
    forall part <- Split(b, ',') :: Strip(part) in {"Z", "NZ", "-"}
  }

  /** `_extract_counter_states`: the counter text of an expression; "(Z)" when it has no "/". */
  function ExtractCounterStates(expr: string): (r: Result<string, CompileError>)
    ensures expr == "" ==> r == Err(EmptyExpression)
    ensures expr != "" && '/' !in expr ==> r == if CounterPatternOccurs(expr) then Err(CounterPatternWithoutSeparator) else Ok("(Z)")
    ensures r.Ok? ==> '(' in r.value && ')' in r.value && '/' !in r.value
  {
    if |expr| == 0 then Err(EmptyExpression)
    else if '/' !in expr then
      if CounterPatternOccurs(expr) then Err(CounterPatternWithoutSeparator) else Ok("(Z)")
    else
      var cs := Strip(Split(expr, '/')[1]);
      if cs == "" || '(' !in cs || ')' !in cs then Err(MalformedCounterStates) else Ok(cs)
  }

  // ---------------------------------------------------------------------------------------
  // Counter states.

  /** The entries of a counter text: spaces and parentheses removed, then split on ",". */
  function CounterEntries(text: string): (entries: seq<string>)
    ensures |entries| >= 1
  {
    Split(Remove(Remove(Remove(text, ' '), '('), ')'), ',')
  }

  function TestOf(entry: string): Option<CounterTest> {
    if entry == "Z" then Some(Zero)
    else if entry == "NZ" then Some(NonZero)
    else if entry == "-" then Some(Any)
    else None
  }

  /** The pattern of a list of entries, failing at the first entry that is not "Z", "NZ" or "-". */
  function PatternOf(entries: seq<string>): (r: Result<seq<CounterTest>, CompileError>)
    ensures r.Ok? <==> forall k :: 0 <= k < |entries| ==> TestOf(entries[k]).Some?
    ensures r.Ok? ==> |r.value| == |entries| && forall k :: 0 <= k < |entries| ==> Some(r.value[k]) == TestOf(entries[k])
  {
    if entries == [] then Ok([])
    else if TestOf(entries[0]).None? then Err(InvalidCounterEntry(entries[0]))
    else
      var rest := PatternOf(entries[1..]);
      assert forall k :: 1 <= k < |entries| ==> entries[k] == entries[1..][k - 1];
      if rest.Err? then rest else Ok([TestOf(entries[0]).value] + rest.value)
  }

  /** The counter pattern a counter text compiles to. */
  function CounterPattern(text: string): Result<seq<CounterTest>, CompileError> {
    PatternOf(CounterEntries(text))
  }

  /** `_construct_callable_counter_state_str_repr`: one condition per entry, appended in order. */
  method BuildCounterPattern(text: string) returns (r: Result<seq<CounterTest>, CompileError>)
    ensures r == CounterPattern(text)
    ensures r.Ok? ==> |r.value| == |CounterEntries(text)|
  {
    var entries := CounterEntries(text);
    var conditions: seq<CounterTest> := [];
    var i := 0;
    while i < |entries|
      invariant 0 <= i <= |entries|
      invariant |conditions| == i
      invariant forall k :: 0 <= k < i ==> TestOf(entries[k]) == Some(conditions[k])
    {
      var entry := entries[i];
      if entry == "Z" {
        conditions := conditions + [Zero];
      } else if entry == "NZ" {
        conditions := conditions + [NonZero];
      } else if entry == "-" {
        conditions := conditions + [Any];
      } else {
        FirstInvalidEntry(entries, i);
        return Err(InvalidCounterEntry(entry));
      }
      i := i + 1;
    }
    PatternOfValid(entries, conditions);
    return Ok(conditions);
  }

  lemma {:induction false} FirstInvalidEntry(entries: seq<string>, i: nat)
    requires i < |entries| && TestOf(entries[i]).None?
    requires forall k :: 0 <= k < i ==> TestOf(entries[k]).Some?
    ensures PatternOf(entries) == Err(InvalidCounterEntry(entries[i]))
  {
    if i > 0 {
      FirstInvalidEntry(entries[1..], i - 1);
    }
  }

  lemma PatternOfValid(entries: seq<string>, pattern: seq<CounterTest>)
    requires |pattern| == |entries|
    requires forall k :: 0 <= k < |entries| ==> TestOf(entries[k]) == Some(pattern[k])
    ensures PatternOf(entries) == Ok(pattern)
  {
    var r := PatternOf(entries);
    assert r.Ok?;
    assert forall k :: 0 <= k < |pattern| ==> r.value[k] == pattern[k];
    assert r.value == pattern;
  }

  // ---------------------------------------------------------------------------------------
  // The event formula: tokens, then a recursive-descent parser with Python's precedence.

  datatype Token = Word(text: string) | LParen | RParen

  predicate IsWordChar(ch: char) {
    'a' <= ch <= 'z' || 'A' <= ch <= 'Z' || '0' <= ch <= '9' || ch == '_'
  }

  /** Characters Python skips between the tokens of one logical line. */
  predicate IsBlank(ch: char) {
    ch == ' ' || ch == '\t' || ch == '\U{c}'
  }

  predicate IsWord(w: string) {
    w != [] && forall k :: 0 <= k < |w| ==> IsWordChar(w[k])
  }

  /** A word the rewrite prefixes with the enum's name: it starts with a capital. `True`,
      `False` and `None` are left out: after the prefix they are keywords in attribute
      position, which `exec` rejects. */
  predicate IsPropositionName(w: string) {
    IsWord(w) && 'A' <= w[0] <= 'Z' && w !in {"True", "False", "None"}
  }

  predicate IsUpperOrUnderscore(ch: char) {
    'A' <= ch <= 'Z' || ch == '_'
  }

  /** A name the rewrite `(([A-Z]+_*)+)` splits: it prefixes the enum's name to every run of
      capitals, so a capital after a digit or a small letter starts a second run, and
      `BLOCK_1_GRASPED` becomes `EnvProps.BLOCK_1_EnvProps in props.GRASPED`. */
  predicate Garbled(w: string) {
    exists i, j :: 0 <= i < j < |w| && !IsUpperOrUnderscore(w[i]) && 'A' <= w[j] <= 'Z'
  }

  function WordLength(s: string): (n: nat)
    ensures n <= |s|
    ensures forall k :: 0 <= k < n ==> IsWordChar(s[k])
    ensures n == |s| || !IsWordChar(s[n])
  {
    if s == [] || !IsWordChar(s[0]) then 0 else 1 + WordLength(s[1..])
  }

  function Tokenize(s: string): (r: Result<seq<Token>, CompileError>)
    decreases |s|
  {
    if s == [] then Ok([])
    else if IsBlank(s[0]) then Tokenize(s[1..])
    else if s[0] == '(' then
      var rest :- Tokenize(s[1..]);
      Ok([LParen] + rest)
    else if s[0] == ')' then
      var rest :- Tokenize(s[1..]);
      Ok([RParen] + rest)
    else if IsWordChar(s[0]) then
      var n := WordLength(s);
      var rest :- Tokenize(s[n..]);
      Ok([Word(s[..n])] + rest)
    else Err(SyntaxError)
  }

  /** disjunction := conjunction ("or" conjunction)* */
  function ParseDisjunction(ts: seq<Token>): (r: Result<(Formula, seq<Token>), CompileError>)
    ensures r.Ok? ==> |r.value.1| < |ts|
    decreases |ts|, 3
  {
    var p :- ParseConjunction(ts);
    DisjunctionTail(p.0, p.1)
  }

  function DisjunctionTail(acc: Formula, ts: seq<Token>): (r: Result<(Formula, seq<Token>), CompileError>)
    ensures r.Ok? ==> |r.value.1| <= |ts|
    decreases |ts|, 4
  {
    if ts != [] && ts[0] == Word("or") then
      var p :- ParseConjunction(ts[1..]);
      DisjunctionTail(Or(acc, p.0), p.1)
    else Ok((acc, ts))
  }

  /** conjunction := negation ("and" negation)* */
  function ParseConjunction(ts: seq<Token>): (r: Result<(Formula, seq<Token>), CompileError>)
    ensures r.Ok? ==> |r.value.1| < |ts|
    decreases |ts|, 2
  {
    var p :- ParseNegation(ts);
    ConjunctionTail(p.0, p.1)
  }

  function ConjunctionTail(acc: Formula, ts: seq<Token>): (r: Result<(Formula, seq<Token>), CompileError>)
    ensures r.Ok? ==> |r.value.1| <= |ts|
    decreases |ts|, 2
  {
    if ts != [] && ts[0] == Word("and") then
      var p :- ParseNegation(ts[1..]);
      ConjunctionTail(And(acc, p.0), p.1)
    else Ok((acc, ts))
  }

  /** negation := "not" negation | proposition | "(" disjunction ")" */
  function ParseNegation(ts: seq<Token>): (r: Result<(Formula, seq<Token>), CompileError>)
    ensures r.Ok? ==> |r.value.1| < |ts|
    decreases |ts|, 1
  {
    if ts == [] then Err(SyntaxError)
    else if ts[0] == Word("not") then
      var p :- ParseNegation(ts[1..]);
      Ok((Not(p.0), p.1))
    else if ts[0].Word? && IsPropositionName(ts[0].text) then Ok((Prop(ts[0].text), ts[1..]))
    else if ts[0] == LParen then
      var p :- ParseDisjunction(ts[1..]);
      if p.1 != [] && p.1[0] == RParen then Ok((p.0, p.1[1..])) else Err(SyntaxError)
    else Err(SyntaxError)
  }

  /** `_construct_wff_callable`: the empty text is constant true, anything else must parse whole. */
  function ParseWff(text: string): Result<Formula, CompileError> {
    if text == "" then Ok(True)
    else
      var ts :- Tokenize(text);
      var p :- ParseDisjunction(ts);
      if p.1 == [] then Ok(p.0) else Err(SyntaxError)
  }

  /** `compile_transition_expression`. */
  function Compile(expr: string): (r: Result<Guard, CompileError>)
    ensures expr == "" ==> r == Err(EmptyExpression)
    ensures expr != "" && '/' !in expr && '(' in expr && ')' in expr ==> r == Err(ParenthesesWithoutSeparator)
  {
    var wffText :- ExtractWff(expr);
    var counterText :- ExtractCounterStates(expr);
    var wff :- ParseWff(wffText);
    var pattern :- CounterPattern(counterText);
    Ok(Guard(wff, pattern))
  }

  // ---------------------------------------------------------------------------------------
  // Evaluation, as the generated Python runs it (short-circuit, left to right).

  function Eval(f: Formula, alphabet: set<string>, events: set<string>): Result<bool, EvalError> {
    match f
    case True => Ok(true)
    case Prop(x) =>
      if Garbled(x) then Err(GarbledName(x))
      else if x in alphabet then Ok(x in events) else Err(UnknownProposition(x))
    case Not(g) =>
      var b :- Eval(g, alphabet, events);
      Ok(!b)
    case And(l, r) =>
      var b :- Eval(l, alphabet, events);
      if !b then Ok(false) else Eval(r, alphabet, events)
    case Or(l, r) =>
      var b :- Eval(l, alphabet, events);
      if b then Ok(true) else Eval(r, alphabet, events)
  }

  /** Counters collapsed to their class, 0 for zero and 1 otherwise. */
  function Collapse(counters: seq<int>): (r: seq<int>)
    ensures |r| == |counters|
    ensures forall k :: 0 <= k < |r| ==> r[k] == if counters[k] == 0 then 0 else 1
  {
    if counters == [] then [] else [if counters[0] == 0 then 0 else 1] + Collapse(counters[1..])
  }

  /** The conditions of a pattern from entry `i` on, joined by `and`, over collapsed counters. */
  function EvalPatternFrom(p: seq<CounterTest>, c: seq<int>, i: nat): Result<bool, EvalError>
    requires i <= |p|
    decreases |p| - i
  {
    if i == |p| then Ok(true)
    else match p[i]
      case Any => EvalPatternFrom(p, c, i + 1)
      case Zero =>
        if i >= |c| then Err(CounterIndexOutOfRange(i))
        else if c[i] == 0 then EvalPatternFrom(p, c, i + 1) else Ok(false)
      case NonZero =>
        if i >= |c| then Err(CounterIndexOutOfRange(i))
        else if c[i] == 1 then EvalPatternFrom(p, c, i + 1) else Ok(false)
  }

  function EvalPattern(p: seq<CounterTest>, counters: seq<int>): Result<bool, EvalError> {
    EvalPatternFrom(p, Collapse(counters), 0)
  }

  /** The compiled `transition_formula(props, counter_states)`. */
  function EvalGuard(g: Guard, alphabet: set<string>, events: set<string>, counters: seq<int>): Result<bool, EvalError> {
    var w :- Eval(g.wff, alphabet, events);
    if !w then Ok(false) else EvalPattern(g.pattern, counters)
  }

  // ---------------------------------------------------------------------------------------
  // Reference semantics.

  /** Classical truth of a formula for the set of events that occurred. */
  predicate Holds(f: Formula, events: set<string>) {
    match f
    case True => true
    case Prop(x) => x in events
    case Not(g) => !Holds(g, events)
    case And(l, r) => Holds(l, events) && Holds(r, events)
    case Or(l, r) => Holds(l, events) || Holds(r, events)
  }

  function Props(f: Formula): set<string> {
    match f
    case True => {}
    case Prop(x) => {x}
    case Not(g) => Props(g)
    case And(l, r) => Props(l) + Props(r)
    case Or(l, r) => Props(l) + Props(r)
  }

  predicate Accepts(t: CounterTest, counters: seq<int>, i: nat) {
    match t
    case Any => true
    case Zero => i < |counters| && counters[i] == 0
    case NonZero => i < |counters| && counters[i] != 0
  }

  /** Entry i of the pattern constrains counter i: "Z" to zero, "NZ" to non-zero. */
  predicate Matches(p: seq<CounterTest>, counters: seq<int>) {
    forall i :: 0 <= i < |p| ==> Accepts(p[i], counters, i)
  }

  predicate GuardHolds(g: Guard, events: set<string>, counters: seq<int>) {
    Holds(g.wff, events) && Matches(g.pattern, counters)
  }

  /** No proposition of the formula is split by the rewrite. */
  predicate Intact(f: Formula) {
    forall x :: x in Props(f) ==> !Garbled(x)
  }

  /** Every proposition is known and intact, and the pattern is no longer than the counter
      vector. */
  predicate WellFormed(g: Guard, alphabet: set<string>, arity: nat) {
    Props(g.wff) <= alphabet && Intact(g.wff) && |g.pattern| <= arity
  }


  // ---------------------------------------------------------------------------------------
  // Evaluation against the reference semantics.

  /** Whatever the generated Python returns is the classical truth value. */
  lemma {:induction false} EvalSound(f: Formula, alphabet: set<string>, events: set<string>, b: bool)
    requires Eval(f, alphabet, events) == Ok(b)
    ensures b == Holds(f, events)
  {
    match f
    case True =>
    case Prop(x) =>
    case Not(g) =>
      EvalSound(g, alphabet, events, !b);
    case And(l, r) =>
      var bl := Eval(l, alphabet, events).value;
      EvalSound(l, alphabet, events, bl);
      if bl { EvalSound(r, alphabet, events, b); }
    case Or(l, r) =>
      var bl := Eval(l, alphabet, events).value;
      EvalSound(l, alphabet, events, bl);
      if !bl { EvalSound(r, alphabet, events, b); }
  }

  /** With every proposition intact and in the alphabet, evaluation never raises. */
  lemma {:induction false} EvalTotal(f: Formula, alphabet: set<string>, events: set<string>)
    requires Props(f) <= alphabet && Intact(f)
    ensures Eval(f, alphabet, events) == Ok(Holds(f, events))
  {
    match f
    case True =>
    case Prop(x) =>
    case Not(g) =>
      EvalTotal(g, alphabet, events);
    case And(l, r) =>
      EvalTotal(l, alphabet, events);
      EvalTotal(r, alphabet, events);
    case Or(l, r) =>
      EvalTotal(l, alphabet, events);
      EvalTotal(r, alphabet, events);
  }

  /** `BLOCK_1_GRASPED` parses as one proposition but is split by the rewrite, so its
      evaluation raises whatever the alphabet and the events. */
  lemma SplitNameRaises(alphabet: set<string>, events: set<string>)
    ensures IsPropositionName("BLOCK_1_GRASPED") && Garbled("BLOCK_1_GRASPED")
    ensures Eval(Prop("BLOCK_1_GRASPED"), alphabet, events) == Err(GarbledName("BLOCK_1_GRASPED"))
  {
    var w := "BLOCK_1_GRASPED";
    assert !IsUpperOrUnderscore(w[6]) && 'A' <= w[8] <= 'Z';
  }

  /** A name made of capitals and underscores only is never split. */
  lemma CapitalsIntact(w: string)
    requires forall k :: 0 <= k < |w| ==> IsUpperOrUnderscore(w[k])
    ensures !Garbled(w)
  {
  }

  /** Evaluation raises only for a split proposition or an intact one outside the alphabet,
      and only for one the formula names. */
  lemma {:induction false} EvalRaisesOnUnknown(f: Formula, alphabet: set<string>, events: set<string>)
    requires Eval(f, alphabet, events).Err?
    ensures Eval(f, alphabet, events).error.UnknownProposition? || Eval(f, alphabet, events).error.GarbledName?
    ensures var e := Eval(f, alphabet, events).error;
            e.UnknownProposition? ==> e.name in Props(f) - alphabet && !Garbled(e.name)
    ensures var e := Eval(f, alphabet, events).error;
            e.GarbledName? ==> e.name in Props(f) && Garbled(e.name)
  {
    match f
    case True =>
    case Prop(x) =>
    case Not(g) =>
      EvalRaisesOnUnknown(g, alphabet, events);
    case And(l, r) =>
      if Eval(l, alphabet, events).Err? { EvalRaisesOnUnknown(l, alphabet, events); } else { EvalRaisesOnUnknown(r, alphabet, events); }
    case Or(l, r) =>
      if Eval(l, alphabet, events).Err? { EvalRaisesOnUnknown(l, alphabet, events); } else { EvalRaisesOnUnknown(r, alphabet, events); }
  }

  predicate MatchesFrom(p: seq<CounterTest>, counters: seq<int>, i: nat) {
    forall j :: i <= j < |p| ==> Accepts(p[j], counters, j)
  }

  lemma {:induction false} PatternFromSound(p: seq<CounterTest>, counters: seq<int>, i: nat, b: bool)
    requires i <= |p|
    requires EvalPatternFrom(p, Collapse(counters), i) == Ok(b)
    ensures b == MatchesFrom(p, counters, i)
    decreases |p| - i
  {
    if i < |p| {
      var c := Collapse(counters);
      if p[i] == Any || (i < |c| && ((p[i] == Zero && c[i] == 0) || (p[i] == NonZero && c[i] == 1))) {
        PatternFromSound(p, counters, i + 1, b);
      }
    }
  }

  lemma {:induction false} PatternFromTotal(p: seq<CounterTest>, counters: seq<int>, i: nat)
    requires i <= |p| <= |counters|
    ensures EvalPatternFrom(p, Collapse(counters), i).Ok?
    decreases |p| - i
  {
    if i < |p| {
      PatternFromTotal(p, counters, i + 1);
    }
  }

  lemma {:induction false} PatternFromError(p: seq<CounterTest>, counters: seq<int>, i: nat)
    requires i <= |p|
    ensures EvalPatternFrom(p, Collapse(counters), i).Err?
        <==> (forall j :: i <= j < |p| && j < |counters| ==> Accepts(p[j], counters, j))
             && (exists j :: i <= j < |p| && |counters| <= j && p[j] != Any)
    decreases |p| - i
  {
    if i < |p| {
      PatternFromError(p, counters, i + 1);
    }
  }

  /** Whatever the counter conditions return is whether the counters match the pattern. */
  lemma PatternSound(p: seq<CounterTest>, counters: seq<int>, b: bool)
    requires EvalPattern(p, counters) == Ok(b)
    ensures b == Matches(p, counters)
  {
    PatternFromSound(p, counters, 0, b);
  }

  /** A pattern no longer than the counter vector never raises. */
  lemma PatternTotal(p: seq<CounterTest>, counters: seq<int>)
    requires |p| <= |counters|
    ensures EvalPattern(p, counters) == Ok(Matches(p, counters))
  {
    PatternFromTotal(p, counters, 0);
    PatternFromSound(p, counters, 0, EvalPattern(p, counters).value);
  }

  /** There is no arity check: a pattern longer than the vector raises exactly when evaluation
      gets past every entry that fits and reaches a "Z" or "NZ" beyond the vector. */
  lemma PatternOutOfRange(p: seq<CounterTest>, counters: seq<int>)
    ensures EvalPattern(p, counters).Err?
        <==> (forall j :: 0 <= j < |p| && j < |counters| ==> Accepts(p[j], counters, j))
             && (exists j :: |counters| <= j < |p| && p[j] != Any)
  {
    PatternFromError(p, counters, 0);
  }

  /** A k-entry pattern reads only counters 0..k-1, and only whether each is zero. */
  lemma {:induction false} PatternReadsClasses(p: seq<CounterTest>, c1: seq<int>, c2: seq<int>)
    requires (|p| <= |c1| && |p| <= |c2|) || |c1| == |c2|
    requires forall j :: 0 <= j < |p| && j < |c1| && j < |c2| ==> (c1[j] == 0 <==> c2[j] == 0)
    ensures EvalPattern(p, c1) == EvalPattern(p, c2)
  {
    PatternFromClasses(p, c1, c2, 0);
  }

  lemma {:induction false} PatternFromClasses(p: seq<CounterTest>, c1: seq<int>, c2: seq<int>, i: nat)
    requires i <= |p|
    requires (|p| <= |c1| && |p| <= |c2|) || |c1| == |c2|
    requires forall j :: 0 <= j < |p| && j < |c1| && j < |c2| ==> (c1[j] == 0 <==> c2[j] == 0)
    ensures EvalPatternFrom(p, Collapse(c1), i) == EvalPatternFrom(p, Collapse(c2), i)
    decreases |p| - i
  {
    if i < |p| {
      PatternFromClasses(p, c1, c2, i + 1);
    }
  }

  /** Whatever the compiled formula returns is the truth of event formula and pattern together. */
  lemma GuardSound(g: Guard, alphabet: set<string>, events: set<string>, counters: seq<int>, b: bool)
    requires EvalGuard(g, alphabet, events, counters) == Ok(b)
    ensures b == GuardHolds(g, events, counters)
  {
    var w := Eval(g.wff, alphabet, events).value;
    EvalSound(g.wff, alphabet, events, w);
    if w {
      PatternSound(g.pattern, counters, b);
    }
  }

  /** A well-formed guard evaluates without raising, to the conjunction of the two parts. */
  lemma GuardTotal(g: Guard, alphabet: set<string>, events: set<string>, counters: seq<int>)
    requires WellFormed(g, alphabet, |counters|)
    ensures EvalGuard(g, alphabet, events, counters) == Ok(GuardHolds(g, events, counters))
  {
    EvalTotal(g.wff, alphabet, events);
    PatternTotal(g.pattern, counters);
  }

  // ---------------------------------------------------------------------------------------
  // Printing event formulas, and the round trip through tokenizer and parser.

  /** A formula that has a text: `True` only as the whole (empty) text, known-shaped names. */
  predicate Printable(f: Formula) {
    match f
    case True => false
    case Prop(x) => IsPropositionName(x)
    case Not(g) => Printable(g)
    case And(l, r) => Printable(l) && Printable(r)
    case Or(l, r) => Printable(l) && Printable(r)
  }

  /** The text of a formula with only the parentheses Python's precedence needs; `level` is
      0 for an operand of `or`, 1 for an operand of `and`, 2 for an operand of `not`. */
  function RenderAt(f: Formula, level: nat): string
    decreases f, level
  {
    match f
    case True => ""
    case Prop(x) => x
    case Not(g) => "not " + RenderAt(g, 2)
    case And(l, r) =>
      if level <= 1 then RenderAt(l, 1) + " and " + RenderAt(r, 2) else "(" + RenderAt(f, 1) + ")"
    case Or(l, r) =>
      if level == 0 then RenderAt(l, 0) + " or " + RenderAt(r, 1) else "(" + RenderAt(f, 0) + ")"
  }

  function Render(f: Formula): string {
    RenderAt(f, 0)
  }

  /** The tokens of `RenderAt(f, level)`. */
  function TokensAt(f: Formula, level: nat): seq<Token>
    decreases f, level
  {
    match f
    case True => []
    case Prop(x) => [Word(x)]
    case Not(g) => [Word("not")] + TokensAt(g, 2)
    case And(l, r) =>
      if level <= 1 then TokensAt(l, 1) + [Word("and")] + TokensAt(r, 2) else [LParen] + TokensAt(f, 1) + [RParen]
    case Or(l, r) =>
      if level == 0 then TokensAt(l, 0) + [Word("or")] + TokensAt(r, 1) else [LParen] + TokensAt(f, 0) + [RParen]
  }

  lemma Keywords()
    ensures IsWord("not") && IsWord("and") && IsWord("or")
  {
  }

  lemma {:induction false} WordLengthOfWord(w: string, s: string)
    requires IsWord(w)
    requires s == [] || !IsWordChar(s[0])
    ensures WordLength(w + s) == |w|
  {
    if |w| > 1 {
      assert (w + s)[1..] == w[1..] + s;
      WordLengthOfWord(w[1..], s);
    } else {
      assert (w + s)[1..] == s;
    }
  }

  lemma TokenizeWord(w: string, s: string)
    requires IsWord(w)
    requires s == [] || !IsWordChar(s[0])
    requires Tokenize(s).Ok?
    ensures Tokenize(w + s) == Ok([Word(w)] + Tokenize(s).value)
  {
    WordLengthOfWord(w, s);
    assert (w + s)[..|w|] == w;
    assert (w + s)[|w|..] == s;
  }

  lemma TokenizeChar(ch: char, s: string)
    requires Tokenize(s).Ok?
    ensures IsBlank(ch) ==> Tokenize([ch] + s) == Tokenize(s)
    ensures ch == '(' ==> Tokenize([ch] + s) == Ok([LParen] + Tokenize(s).value)
    ensures ch == ')' ==> Tokenize([ch] + s) == Ok([RParen] + Tokenize(s).value)
  {
    assert ([ch] + s)[1..] == s;
  }

  /** A word followed by a blank and more text. */
  lemma TokenizeKeyword(k: string, t: string)
    requires IsWord(k)
    requires Tokenize(t).Ok?
    ensures Tokenize(k + " " + t) == Ok([Word(k)] + Tokenize(t).value)
  {
    TokenizeChar(' ', t);
    assert [' '] + t == " " + t;
    TokenizeWord(k, " " + t);
    assert k + " " + t == k + (" " + t);
  }

  /** A blank before a word and more text. */
  lemma TokenizeSpaced(k: string, t: string)
    requires IsWord(k)
    requires Tokenize(t).Ok?
    ensures Tokenize(" " + k + " " + t) == Ok([Word(k)] + Tokenize(t).value)
  {
    TokenizeKeyword(k, t);
    TokenizeChar(' ', k + " " + t);
    assert [' '] + (k + " " + t) == " " + k + " " + t;
  }

  /** A binary connective: `left op right` followed by `s`. */
  lemma TokenizeBinary(left: string, op: string, right: string, s: string, lt: seq<Token>, rt: seq<Token>, st: seq<Token>)
    requires Tokenize(right + s) == Ok(rt + st)
    requires Tokenize(left + (" " + op + " " + (right + s))) == Ok(lt + ([Word(op)] + (rt + st)))
    ensures Tokenize(left + " " + op + " " + right + s) == Ok(lt + [Word(op)] + rt + st)
  {
    assert left + " " + op + " " + right + s == left + (" " + op + " " + (right + s));
    assert lt + [Word(op)] + rt + st == lt + ([Word(op)] + (rt + st));
  }

  /** Tokenizing a rendered formula gives back its tokens, whatever non-word text follows. */
  lemma {:induction false} TokenizeRendered(f: Formula, level: nat, s: string)
    requires Printable(f)
    requires s == [] || !IsWordChar(s[0])
    requires Tokenize(s).Ok?
    ensures Tokenize(RenderAt(f, level) + s) == Ok(TokensAt(f, level) + Tokenize(s).value)
    decreases f, level, 1
  {
    if f.Prop? {
      TokenizeWord(f.name, s);
    } else if f.Not? {
      TokenizeNegated(f, level, s);
    } else if (f.And? && level <= 1) || (f.Or? && level == 0) {
      TokenizeConnective(f, level, s);
    } else {
      TokenizeParenthesised(f, level, s);
    }
  }

  lemma {:induction false} TokenizeNegated(f: Formula, level: nat, s: string)
    requires f.Not? && Printable(f)
    requires s == [] || !IsWordChar(s[0])
    requires Tokenize(s).Ok?
    ensures Tokenize(RenderAt(f, level) + s) == Ok(TokensAt(f, level) + Tokenize(s).value)
    decreases f, 0, 0
  {
    var g, st := f.arg, Tokenize(s).value;
    TokenizeRendered(g, 2, s);
    Keywords();
    TokenizeKeyword("not", RenderAt(g, 2) + s);
    TokenizeNegatedStep(g, level, s, st);
  }

  lemma TokenizeNegatedStep(g: Formula, level: nat, s: string, st: seq<Token>)
    requires Tokenize("not" + " " + (RenderAt(g, 2) + s)) == Ok([Word("not")] + (TokensAt(g, 2) + st))
    ensures Tokenize(RenderAt(Not(g), level) + s) == Ok(TokensAt(Not(g), level) + st)
  {
    Regroup3("not ", RenderAt(g, 2), s);
    NotPrefix(RenderAt(g, 2) + s);
    Regroup3([Word("not")], TokensAt(g, 2), st);
  }

  /** `and` or `or` between two operands, without parentheses. */
  lemma {:induction false} TokenizeConnective(f: Formula, level: nat, s: string)
    requires (f.And? && level <= 1) || (f.Or? && level == 0)
    requires Printable(f)
    requires s == [] || !IsWordChar(s[0])
    requires Tokenize(s).Ok?
    ensures Tokenize(RenderAt(f, level) + s) == Ok(TokensAt(f, level) + Tokenize(s).value)
    decreases f, 0, 0
  {
    var l, r, st := f.left, f.right, Tokenize(s).value;
    var op, ll, rl := if f.And? then "and" else "or", if f.And? then 1 else 0, if f.And? then 2 else 1;
    Keywords();
    TokenizeRendered(r, rl, s);
    TokenizeSpaced(op, RenderAt(r, rl) + s);
    var u := " " + op + " " + (RenderAt(r, rl) + s);
    assert u[0] == ' ';
    TokenizeRendered(l, ll, u);
    ConnectiveParts(f, level);
    TokenizeBinary(RenderAt(l, ll), op, RenderAt(r, rl), s, TokensAt(l, ll), TokensAt(r, rl), st);
  }

  /** The text and the tokens of a connective written without parentheses. */
  lemma ConnectiveParts(f: Formula, level: nat)
    requires (f.And? && level <= 1) || (f.Or? && level == 0)
    ensures var op, ll, rl := if f.And? then "and" else "or", if f.And? then 1 else 0, if f.And? then 2 else 1;
            RenderAt(f, level) == RenderAt(f.left, ll) + " " + op + " " + RenderAt(f.right, rl)
            && TokensAt(f, level) == TokensAt(f.left, ll) + [Word(op)] + TokensAt(f.right, rl)
  {
    if f.And? {
      SpacedOp(RenderAt(f.left, 1), "and", RenderAt(f.right, 2));
    } else {
      SpacedOp(RenderAt(f.left, 0), "or", RenderAt(f.right, 1));
    }
  }

  lemma SpacedOp(a: string, op: string, b: string)
    ensures a + " " + op + " " + b == a + (" " + op + " ") + b
  {
  }

  lemma Regroup3<T>(a: seq<T>, b: seq<T>, c: seq<T>)
    ensures a + b + c == a + (b + c)
  {
  }

  lemma Regroup4<T>(a: seq<T>, b: seq<T>, c: seq<T>, d: seq<T>)
    ensures a + b + c + d == a + (b + (c + d))
  {
  }

  lemma Cons<T>(x: T, a: seq<T>)
    ensures ([x] + a)[0] == x && ([x] + a)[1..] == a
  {
  }

  lemma NotPrefix(x: string)
    ensures "not " + x == "not" + " " + x
  {
  }

  /** A connective that needs parentheses at this level. */
  lemma {:induction false} TokenizeParenthesised(f: Formula, level: nat, s: string)
    requires (f.And? && level > 1) || (f.Or? && level > 0)
    requires Printable(f)
    requires s == [] || !IsWordChar(s[0])
    requires Tokenize(s).Ok?
    ensures Tokenize(RenderAt(f, level) + s) == Ok(TokensAt(f, level) + Tokenize(s).value)
    decreases f, level, 0
  {
    var st := Tokenize(s).value;
    var inner := if f.And? then 1 else 0;
    TokenizeChar(')', s);
    TokenizeRendered(f, inner, ")" + s);
    TokenizeParenthesisedStep(f, level, inner, s, st);
  }

  lemma TokenizeParenthesisedStep(f: Formula, level: nat, inner: nat, s: string, st: seq<Token>)
    requires (f.And? && level > 1 && inner == 1) || (f.Or? && level > 0 && inner == 0)
    requires Tokenize(RenderAt(f, inner) + (")" + s)) == Ok(TokensAt(f, inner) + ([RParen] + st))
    ensures Tokenize(RenderAt(f, level) + s) == Ok(TokensAt(f, level) + st)
  {
    TokenizeChar('(', RenderAt(f, inner) + (")" + s));
    assert RenderAt(f, level) == "(" + RenderAt(f, inner) + ")";
    Regroup4("(", RenderAt(f, inner), ")", s);
    assert TokensAt(f, level) == [LParen] + TokensAt(f, inner) + [RParen];
    Regroup4([LParen], TokensAt(f, inner), [RParen], st);
  }

  lemma {:induction false} ParseNegationTokens(f: Formula, rest: seq<Token>)
    requires Printable(f)
    ensures ParseNegation(TokensAt(f, 2) + rest) == Ok((f, rest))
    decreases f, if f.And? then 3 else 1
  {
    match f
    case Prop(x) =>
      ParsePropositionStep(x, rest);
    case Not(g) =>
      ParseNegationTokens(g, rest);
      ParseNegatedStep(g, rest);
    case And(l, r) =>
      ParseConjunctionTokens(f, [RParen] + rest);
      ParseParenthesisedStep(f, 1, rest);
    case Or(l, r) =>
      ParseDisjunctionTokens(f, [RParen] + rest);
      ParseParenthesisedStep(f, 0, rest);
  }

  lemma ParsePropositionStep(x: string, rest: seq<Token>)
    requires IsPropositionName(x)
    ensures ParseNegation(TokensAt(Prop(x), 2) + rest) == Ok((Prop(x), rest))
  {
    var ts := TokensAt(Prop(x), 2) + rest;
    assert ts[0] == Word(x) && ts[1..] == rest;
  }

  lemma ParseNegatedStep(g: Formula, rest: seq<Token>)
    requires ParseNegation(TokensAt(g, 2) + rest) == Ok((g, rest))
    ensures ParseNegation(TokensAt(Not(g), 2) + rest) == Ok((Not(g), rest))
  {
    assert TokensAt(Not(g), 2) == [Word("not")] + TokensAt(g, 2);
    Regroup3([Word("not")], TokensAt(g, 2), rest);
    Cons(Word("not"), TokensAt(g, 2) + rest);
  }

  /** A parenthesised connective: the tokens inside parse as a disjunction that stops at `)`. */
  lemma ParseParenthesisedStep(f: Formula, inner: nat, rest: seq<Token>)
    requires (f.And? && inner == 1) || (f.Or? && inner == 0)
    requires inner == 1 ==> ParseConjunction(TokensAt(f, 1) + ([RParen] + rest)) == ConjunctionTail(f, [RParen] + rest)
    requires inner == 0 ==> ParseDisjunction(TokensAt(f, 0) + ([RParen] + rest)) == DisjunctionTail(f, [RParen] + rest)
    ensures ParseNegation(TokensAt(f, 2) + rest) == Ok((f, rest))
  {
    var x := [RParen] + rest;
    var body := TokensAt(f, inner) + x;
    TailsStop(f, x);
    if inner == 1 {
      assert TokensAt(f, 0) == TokensAt(f, 1);
      ParseDisjunctionOfConjunction(body, f, x);
    }
    ParseParentheses(body, f, rest);
    TokensParenthesised(f, inner, rest);
  }

  lemma TailsStop(f: Formula, ts: seq<Token>)
    requires ts == [] || (ts[0] != Word("and") && ts[0] != Word("or"))
    ensures ConjunctionTail(f, ts) == Ok((f, ts))
    ensures DisjunctionTail(f, ts) == Ok((f, ts))
  {
  }

  lemma ParseDisjunctionOfConjunction(ts: seq<Token>, f: Formula, rest: seq<Token>)
    requires ParseConjunction(ts) == Ok((f, rest))
    requires DisjunctionTail(f, rest) == Ok((f, rest))
    ensures ParseDisjunction(ts) == Ok((f, rest))
  {
  }

  lemma TokensParenthesised(f: Formula, inner: nat, rest: seq<Token>)
    requires (f.And? && inner == 1) || (f.Or? && inner == 0)
    ensures TokensAt(f, 2) + rest == [LParen] + (TokensAt(f, inner) + ([RParen] + rest))
  {
  }

  lemma ParseParentheses(body: seq<Token>, f: Formula, rest: seq<Token>)
    requires ParseDisjunction(body) == Ok((f, [RParen] + rest))
    ensures ParseNegation([LParen] + body) == Ok((f, rest))
  {
    assert ([LParen] + body)[1..] == body;
    assert ([RParen] + rest)[1..] == rest;
  }

  lemma {:induction false} ParseConjunctionTokens(f: Formula, rest: seq<Token>)
    requires Printable(f)
    ensures ParseConjunction(TokensAt(f, 1) + rest) == ConjunctionTail(f, rest)
    decreases f, 2
  {
    if f.And? {
      var l, r := f.left, f.right;
      var tail := [Word("and")] + (TokensAt(r, 2) + rest);
      assert TokensAt(f, 1) == TokensAt(l, 1) + [Word("and")] + TokensAt(r, 2);
      Regroup4(TokensAt(l, 1), [Word("and")], TokensAt(r, 2), rest);
      ParseConjunctionTokens(l, tail);
      ParseNegationTokens(r, rest);
      Cons(Word("and"), TokensAt(r, 2) + rest);
      assert ConjunctionTail(l, tail) == ConjunctionTail(And(l, r), rest);
    } else {
      assert TokensAt(f, 1) == TokensAt(f, 2);
      ParseNegationTokens(f, rest);
    }
  }

  lemma {:induction false} ParseDisjunctionTokens(f: Formula, rest: seq<Token>)
    requires Printable(f)
    requires rest == [] || rest[0] != Word("and")
    ensures ParseDisjunction(TokensAt(f, 0) + rest) == DisjunctionTail(f, rest)
    decreases f, if f.Or? then 0 else 4
  {
    if f.Or? {
      var l, r := f.left, f.right;
      var tail := [Word("or")] + (TokensAt(r, 1) + rest);
      assert TokensAt(f, 0) == TokensAt(l, 0) + [Word("or")] + TokensAt(r, 1);
      Regroup4(TokensAt(l, 0), [Word("or")], TokensAt(r, 1), rest);
      ParseDisjunctionTokens(l, tail);
      ParseConjunctionTokens(r, rest);
      assert ConjunctionTail(r, rest) == Ok((r, rest));
      Cons(Word("or"), TokensAt(r, 1) + rest);
      assert DisjunctionTail(l, tail) == DisjunctionTail(Or(l, r), rest);
    } else {
      assert TokensAt(f, 0) == TokensAt(f, 1);
      ParseConjunctionTokens(f, rest);
      assert ConjunctionTail(f, rest) == Ok((f, rest));
    }
  }

  /** The text of a formula is non-empty, has no surrounding whitespace and no "/". */
  lemma RenderShape(f: Formula, level: nat)
    requires Printable(f)
    ensures RenderAt(f, level) != []
    ensures !IsSpace(RenderAt(f, level)[0]) && !IsSpace(RenderAt(f, level)[|RenderAt(f, level)| - 1])
    ensures '/' !in RenderAt(f, level)
  {
    RenderEnds(f, level);
    RenderNoSlash(f, level);
  }

  /** A character that can begin or end the text of a formula. */
  predicate EdgeChar(ch: char) {
    ch == '(' || ch == ')' || IsWordChar(ch)
  }

  lemma {:induction false} RenderEnds(f: Formula, level: nat)
    requires Printable(f)
    ensures RenderAt(f, level) != []
    ensures EdgeChar(RenderAt(f, level)[0]) && EdgeChar(RenderAt(f, level)[|RenderAt(f, level)| - 1])
    decreases f, level
  {
    match f
    case Prop(x) =>
    case Not(g) =>
      RenderEnds(g, 2);
      var b := RenderAt(g, 2);
      assert RenderAt(f, level) == "not " + b;
    case And(l, r) =>
      if level <= 1 {
        RenderEnds(l, 1);
        RenderEnds(r, 2);
        var a, b := RenderAt(l, 1), RenderAt(r, 2);
        assert RenderAt(f, level) == a + " and " + b;
      } else {
        RenderEnds(f, 1);
        assert RenderAt(f, level) == "(" + RenderAt(f, 1) + ")";
      }
    case Or(l, r) =>
      if level == 0 {
        RenderEnds(l, 0);
        RenderEnds(r, 1);
        var a, b := RenderAt(l, 0), RenderAt(r, 1);
        assert RenderAt(f, level) == a + " or " + b;
      } else {
        RenderEnds(f, 0);
        assert RenderAt(f, level) == "(" + RenderAt(f, 0) + ")";
      }
  }

  lemma {:induction false} RenderNoSlash(f: Formula, level: nat)
    requires Printable(f)
    ensures '/' !in RenderAt(f, level)
    decreases f, level
  {
    match f
    case Prop(x) =>
      assert '/' !in x by {
        forall k | 0 <= k < |x|
          ensures x[k] != '/'
        {
          assert IsWordChar(x[k]);
        }
      }
    case Not(g) =>
      RenderNoSlash(g, 2);
    case And(l, r) =>
      if level <= 1 { RenderNoSlash(l, 1); RenderNoSlash(r, 2); } else { RenderNoSlash(f, 1); }
    case Or(l, r) =>
      if level == 0 { RenderNoSlash(l, 0); RenderNoSlash(r, 1); } else { RenderNoSlash(f, 0); }
  }

  /** Parsing the text of a formula gives the formula back. */
  lemma ParseRender(f: Formula)
    requires f == True || Printable(f)
    ensures ParseWff(Render(f)) == Ok(f)
  {
    if f != True {
      RenderShape(f, 0);
      TokenizeRendered(f, 0, "");
      assert Render(f) + "" == Render(f);
      assert TokensAt(f, 0) + [] == TokensAt(f, 0);
      ParseDisjunctionTokens(f, []);
    }
  }

  // ---------------------------------------------------------------------------------------
  // Counter texts and whole expressions.

  function EntryName(t: CounterTest): (name: string)
    ensures TestOf(name) == Some(t)
  {
    match t
    case Zero => "Z"
    case NonZero => "NZ"
    case Any => "-"
  }

  function EntryNames(p: seq<CounterTest>): (names: seq<string>)
    ensures |names| == |p|
    ensures forall k :: 0 <= k < |p| ==> names[k] == EntryName(p[k])
  {
    if p == [] then [] else [EntryName(p[0])] + EntryNames(p[1..])
  }

  /** The counter text of a pattern, as the machines write it: "(Z,NZ,-)". */
  function Listing(p: seq<CounterTest>): string {
    "(" + Join(EntryNames(p), ',') + ")"
  }

  /** The characters of a joined list of entry names are letters, "-" and ",". */
  lemma {:induction false} JoinedNamesChars(p: seq<CounterTest>)
    ensures forall ch :: ch in Join(EntryNames(p), ',') ==> ch in "ZN-,"
  {
    if |p| > 1 {
      JoinedNamesChars(p[1..]);
      assert EntryNames(p)[1..] == EntryNames(p[1..]);
    }
  }

  /** Reading back the counter text of a non-empty pattern gives the pattern. */
  lemma CounterPatternListing(p: seq<CounterTest>)
    requires |p| >= 1
    ensures CounterPattern(Listing(p)) == Ok(p)
  {
    ListingRemoved(p);
    NamesWithoutComma(p);
    SplitJoin(EntryNames(p), ',');
    PatternOfValid(EntryNames(p), p);
  }

  /** Removing the blanks and the parentheses from the counter text of a pattern leaves its
      entry names joined by commas. */
  lemma ListingRemoved(p: seq<CounterTest>)
    ensures Remove(Remove(Remove(Listing(p), ' '), '('), ')') == Join(EntryNames(p), ',')
  {
    var body := Join(EntryNames(p), ',');
    assert ' ' !in body && '(' !in body && ')' !in body by {
      JoinedNamesChars(p);
      assert ' ' !in "ZN-," && '(' !in "ZN-," && ')' !in "ZN-,";
    }
    RemoveBracketed(body);
  }

  /** Removing blanks and parentheses from "(" + body + ")" leaves a body that has none. */
  lemma RemoveBracketed(body: string)
    requires ' ' !in body && '(' !in body && ')' !in body
    ensures Remove(Remove(Remove("(" + body + ")", ' '), '('), ')') == body
  {
    var cs := "(" + body + ")";
    assert Remove(cs, ' ') == cs by {
      RemoveAbsent(body, ' ');
      RemoveOne('(', ' ');
      RemoveOne(')', ' ');
      RemoveAround("(", body, ")", ' ');
    }
    assert Remove(cs, '(') == body + ")" by {
      RemoveAbsent(body, '(');
      RemoveOne('(', '(');
      RemoveOne(')', '(');
      RemoveAround("(", body, ")", '(');
    }
    assert Remove(body + ")", ')') == body by {
      RemoveAbsent(body, ')');
      RemoveOne(')', ')');
      RemoveAppend(body, ")", ')');
    }
  }

  lemma RemoveOne(ch: char, c: char)
    ensures Remove([ch], c) == if ch == c then [] else [ch]
  {
    assert [ch][1..] == [];
  }

  lemma RemoveAround(a: string, body: string, b: string, c: char)
    ensures Remove(a + body + b, c) == Remove(a, c) + Remove(body, c) + Remove(b, c)
  {
    RemoveAppend(a + body, b, c);
    RemoveAppend(a, body, c);
  }

  lemma NamesWithoutComma(p: seq<CounterTest>)
    ensures forall k :: 0 <= k < |p| ==> ',' !in EntryNames(p)[k]
  {
    forall k | 0 <= k < |p|
      ensures ',' !in EntryNames(p)[k]
    {
      match p[k]
      case Zero =>
      case NonZero =>
      case Any =>
    }
  }

  /** The text "()" has one empty entry, and the empty entry is invalid. */
  lemma EmptyCounterText()
    ensures CounterPattern("()") == Err(InvalidCounterEntry(""))
  {
    RemoveAbsent("()", ' ');
    assert "()" == "(" + ")";
    RemoveAppend("(", ")", '(');
    RemoveAppend("", ")", ')');
    assert Remove(Remove(Remove("()", ' '), '('), ')') == "";
  }

  /** Spaces anywhere in a counter text do not matter. */
  lemma CounterEntriesIgnoreSpaces(text: string)
    ensures CounterEntries(text) == CounterEntries(Remove(text, ' '))
  {
    RemoveTwice(text, ' ');
  }

  lemma {:induction false} RemoveTwice(s: string, c: char)
    ensures Remove(Remove(s, c), c) == Remove(s, c)
  {
    if s != [] {
      RemoveTwice(s[1..], c);
    }
  }

  /** An expression with event formula `f` and counter pattern `p`, spaced as the machines write
      them: "EVENT_A and not EVENT_B / (Z,NZ)", or "/ (Z,NZ)" when the formula is empty. */
  function Expression(f: Formula, p: seq<CounterTest>): string {
    EventPart(f) + "/" + CounterPart(p)
  }

  function EventPart(f: Formula): string {
    if f == True then "" else Render(f) + " "
  }

  function CounterPart(p: seq<CounterTest>): string {
    " " + Listing(p)
  }

  /** With a "/", the event text is what precedes the first "/", stripped, and the counter
      text is what follows it, stripped; it must be non-empty and hold both parentheses. */
  lemma SeparatedExpression(w: string, cs: string)
    requires '/' !in w && '/' !in cs
    ensures ExtractWff(w + "/" + cs) == Ok(Strip(w))
    ensures ExtractCounterStates(w + "/" + cs)
         == var t := Strip(cs); if t == "" || '(' !in t || ')' !in t then Err(MalformedCounterStates) else Ok(t)
  {
    assert w + "/" + cs == w + ['/'] + cs;
    SplitAt(w, '/', cs);
  }

  /** Text after a second "/" is ignored. */
  lemma LaterSegmentsIgnored(w: string, cs: string, more: string)
    requires '/' !in w && '/' !in cs
    ensures ExtractWff(w + "/" + cs + "/" + more) == ExtractWff(w + "/" + cs)
    ensures ExtractCounterStates(w + "/" + cs + "/" + more) == ExtractCounterStates(w + "/" + cs)
  {
    var e := w + "/" + cs + "/" + more;
    assert e == w + ['/'] + (cs + ['/'] + more);
    assert w + "/" + cs == w + ['/'] + cs;
    SplitAt(w, '/', cs + ['/'] + more);
    SplitAt(w, '/', cs);
    SplitAt(cs, '/', more);
  }

  /** Compiling the text of a formula and a non-empty pattern gives them back. */
  lemma CompileExpression(f: Formula, p: seq<CounterTest>)
    requires f == True || Printable(f)
    requires |p| >= 1
    ensures Compile(Expression(f, p)) == Ok(Guard(f, p))
  {
    EventTextOf(f);
    CounterTextOf(p);
    SeparatedExpression(EventPart(f), CounterPart(p));
    ParseRender(f);
    CounterPatternListing(p);
    CompileOfParts(Expression(f, p), Render(f), Listing(p), Guard(f, p));
  }

  lemma EventTextOf(f: Formula)
    requires f == True || Printable(f)
    ensures '/' !in EventPart(f) && Strip(EventPart(f)) == Render(f)
  {
    if f != True {
      RenderShape(f, 0);
      StripAppendSpace(Render(f), ' ');
      StripOfStripped(Render(f));
    }
  }

  lemma CounterTextOf(p: seq<CounterTest>)
    ensures '/' !in CounterPart(p)
    ensures Strip(CounterPart(p)) == Listing(p)
    ensures Listing(p) != "" && '(' in Listing(p) && ')' in Listing(p)
  {
    var cs := Listing(p);
    ListingEnds(p);
    StripPrependSpace(' ', cs);
    assert [' '] + cs == CounterPart(p);
    assert !IsSpace('(') && !IsSpace(')');
    StripOfStripped(cs);
  }

  /** The counter text of a pattern is bracketed by its parentheses and holds no "/". */
  lemma ListingEnds(p: seq<CounterTest>)
    ensures |Listing(p)| >= 2 && Listing(p)[0] == '(' && Listing(p)[|Listing(p)| - 1] == ')'
    ensures '/' !in Listing(p) && '/' !in CounterPart(p)
  {
    var body := Join(EntryNames(p), ',');
    JoinedNamesChars(p);
    assert '/' !in body by {
      assert '/' !in "ZN-,";
    }
    assert Listing(p) == "(" + body + ")";
    assert CounterPart(p) == " " + Listing(p);
  }

  /** An expression without "/" and without a pair of parentheses is a reward-machine
      expression: its event text is the whole expression, stripped, under the pattern "(Z)". */
  lemma RewardMachineExpression(expr: string)
    requires expr != "" && '/' !in expr && !('(' in expr && ')' in expr)
    ensures ParseWff(Strip(expr)).Ok? ==> Compile(expr) == Ok(Guard(ParseWff(Strip(expr)).value, [Zero]))
    ensures ParseWff(Strip(expr)).Err? ==> Compile(expr) == Err(ParseWff(Strip(expr)).error)
  {
    RewardMachineTexts(expr);
    ZeroPattern();
  }

  /** A reward-machine expression that is a single proposition name compiles to that proposition
      under the implicit pattern "(Z)". */
  lemma CompileWord(x: string)
    requires IsPropositionName(x)
    ensures Compile(x) == Ok(Guard(Prop(x), [Zero]))
  {
    assert '/' !in x && '(' !in x by {
      forall k | 0 <= k < |x|
        ensures x[k] != '/' && x[k] != '('
      {
        assert IsWordChar(x[k]);
      }
    }
    assert IsWordChar(x[|x| - 1]);
    StripOfStripped(x);
    assert Render(Prop(x)) == x;
    ParseRender(Prop(x));
    RewardMachineExpression(x);
  }

  lemma RewardMachineTexts(expr: string)
    requires expr != "" && '/' !in expr && !('(' in expr && ')' in expr)
    ensures ExtractWff(expr) == Ok(Strip(expr))
    ensures ExtractCounterStates(expr) == Ok("(Z)")
  {
    assert !CounterPatternOccurs(expr);
    var e := expr + " /";
    assert e == (expr + " ") + ['/'] + "";
    SplitAt(expr + " ", '/', "");
    StripAppendSpace(expr, ' ');
    assert expr + [' '] == expr + " ";
  }

  /** The implicit counter text of a reward-machine expression tests one counter for zero. */
  lemma ZeroPattern()
    ensures CounterPattern("(Z)") == Ok([Zero])
  {
    assert EntryNames([Zero]) == ["Z"];
    assert "(Z)" == Listing([Zero]);
    CounterPatternListing([Zero]);
  }

  /** A "/" with a counter text that is empty or lacks a parenthesis is rejected. */
  lemma MalformedCounterText(w: string, cs: string)
    requires '/' !in w && '/' !in cs
    requires var t := Strip(cs); t == "" || '(' !in t || ')' !in t
    ensures Compile(w + "/" + cs) == Err(MalformedCounterStates)
  {
    SeparatedExpression(w, cs);
  }

  /** A counter text for pattern `p` spaced freely, as in "(Z, NZ, -)": parentheses at both ends,
      and the text of `p` once the spaces are removed. */
  predicate SpacedListing(cs: string, p: seq<CounterTest>) {
    |cs| >= 2 && cs[0] == '(' && cs[|cs| - 1] == ')' && Remove(cs, ' ') == Listing(p)
  }

  /** The counter text of `p` with ", " between entries, as the warehouse machines write it:
      "(Z, NZ, -)". */
  function SpacedText(p: seq<CounterTest>): string {
    "(" + JoinSpaced(EntryNames(p)) + ")"
  }

  function JoinSpaced(names: seq<string>): string {
    if |names| == 0 then "" else if |names| == 1 then names[0] else names[0] + ", " + JoinSpaced(names[1..])
  }

  lemma {:induction false} RemoveJoinSpaced(names: seq<string>)
    requires forall k :: 0 <= k < |names| ==> ' ' !in names[k]
    ensures Remove(JoinSpaced(names), ' ') == Join(names, ',')
  {
    if |names| == 1 {
      RemoveAbsent(names[0], ' ');
    } else if |names| > 1 {
      RemoveJoinSpaced(names[1..]);
      RemoveAppend(names[0] + ", ", JoinSpaced(names[1..]), ' ');
      RemoveAppend(names[0], ", ", ' ');
      RemoveAbsent(names[0], ' ');
      assert Remove(", ", ' ') == ",";
    }
  }

  /** The spaced text of a pattern is a spaced listing of it. */
  lemma SpacedTextListing(p: seq<CounterTest>)
    ensures SpacedListing(SpacedText(p), p)
  {
    var body := JoinSpaced(EntryNames(p));
    RemoveJoinSpaced(EntryNames(p));
    RemoveAppend("(" + body, ")", ' ');
    RemoveAppend("(", body, ' ');
  }

  /** An expression "F / (..)" with a freely spaced counter text compiles to formula and pattern. */
  lemma CompileSpaced(f: Formula, cs: string, p: seq<CounterTest>)
    requires f == True || Printable(f)
    requires |p| >= 1 && SpacedListing(cs, p)
    ensures Compile(EventPart(f) + "/ " + cs) == Ok(Guard(f, p))
  {
    CompileSpacedText(f, cs, p, EventPart(f) + "/ " + cs);
  }

  /** The same, for an expression given by its text. */
  lemma CompileSpacedText(f: Formula, cs: string, p: seq<CounterTest>, expr: string)
    requires f == True || Printable(f)
    requires |p| >= 1 && SpacedListing(cs, p)
    requires expr == EventPart(f) + "/ " + cs
    ensures Compile(expr) == Ok(Guard(f, p))
  {
    SpacedCounterText(cs, p);
    SlashSpace(EventPart(f), cs);
    EventTextOf(f);
    SeparatedExpression(EventPart(f), [' '] + cs);
    ParseRender(f);
    CompileOfParts(expr, Render(f), cs, Guard(f, p));
  }

  lemma SlashSpace(w: string, cs: string)
    ensures w + "/ " + cs == w + "/" + ([' '] + cs)
  {
  }

  lemma SpacedCounterText(cs: string, p: seq<CounterTest>)
    requires |p| >= 1 && SpacedListing(cs, p)
    ensures '/' !in [' '] + cs && Strip([' '] + cs) == cs && '(' in cs && ')' in cs
    ensures CounterPattern(cs) == Ok(p)
  {
    NoSeparatorInListing(cs, p);
    StripBracketed(cs);
    SpacedPattern(cs, p);
  }

  /** A text in parentheses, after a blank, strips to itself. */
  lemma StripBracketed(cs: string)
    requires |cs| >= 2 && cs[0] == '(' && cs[|cs| - 1] == ')'
    ensures Strip([' '] + cs) == cs && '(' in cs && ')' in cs
  {
    StripPrependSpace(' ', cs);
    assert !IsSpace('(') && !IsSpace(')');
    StripOfStripped(cs);
  }

  lemma NoSeparatorInListing(cs: string, p: seq<CounterTest>)
    requires Remove(cs, ' ') == Listing(p)
    ensures '/' !in cs
  {
    JoinedNamesChars(p);
    if '/' in cs {
      RemoveKeeps(cs, ' ', '/');
    }
  }

  lemma SpacedPattern(cs: string, p: seq<CounterTest>)
    requires |p| >= 1 && Remove(cs, ' ') == Listing(p)
    ensures CounterPattern(cs) == Ok(p)
  {
    CounterEntriesIgnoreSpaces(cs);
    CounterPatternListing(p);
  }

  lemma CompileOfParts(expr: string, wffText: string, counterText: string, g: Guard)
    requires ExtractWff(expr) == Ok(wffText) && ExtractCounterStates(expr) == Ok(counterText)
    requires ParseWff(wffText) == Ok(g.wff) && CounterPattern(counterText) == Ok(g.pattern)
    ensures Compile(expr) == Ok(g)
  {
  }
}
