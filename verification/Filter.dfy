/** Printing filters as search expressions, and reading them back. */
module Filter {
  import opened Wrappers

  /** Text that needs no escaping. */
  predicate Plain(text: string) {
    '"' !in text && '\\' !in text
  }

  /** What formatting a number writes. */
  type Digits = s: string | Plain(s) witness "0"

  /** The right-hand side of a comparison. A float comes with the digits it is
      formatted as. */
  datatype Value = Bool(b: bool) | Int(n: int) | UInt(u: nat) | Float(finite: bool, digits: Digits) | Text(text: string)

  datatype Comparison = Eq | Ne | Gt | Gte | Lt | Lte

  /** A condition; fields are given by their names. */
  datatype Filter =
    | Compare(field: string, op: Comparison, value: Value)
    | Between(field: string, low: Value, high: Value)
    | In(field: string, values: seq<Value>)
    | Exists(field: string)
    | IsNull(field: string)
    | IsEmpty(field: string)
    | Not(filter: Filter)
    | And(filters: seq<Filter>)
    | Or(filters: seq<Filter>)

  datatype FilterError = EmptyGroup | NonFiniteNumber | TooDeep

  const MAX_DEPTH := 64

  // --- The printed text ---

  function Digit(d: nat): char
    requires d < 10
  {
    "0123456789"[d]
  }

  function Natural(n: nat): Digits {
    if n < 10 then [Digit(n)] else Natural(n / 10) + [Digit(n % 10)]
  }

  function Decimal(n: int): Digits {
    if n < 0 then "-" + Natural(-n) else Natural(n)
  }

  /** The text a value stands for. */
  function ValueText(v: Value): string {
    match v
    case Bool(b) => if b then "true" else "false"
    case Int(n) => Decimal(n)
    case UInt(u) => Decimal(u)
    case Float(_, digits) => digits
    case Text(text) => text
  }

  function Escaped(text: string): string {
    if text == [] then []
    else (if text[0] == '"' || text[0] == '\\' then ['\\', text[0]] else [text[0]]) + Escaped(text[1..])
  }

  function Quoted(text: string): string {
    "\"" + Escaped(text) + "\""
  }

  function OpText(op: Comparison): string {
    match op
    case Eq => " = "
    case Ne => " != "
    case Gt => " > "
    case Gte => " >= "
    case Lt => " < "
    case Lte => " <= "
  }

  /** Values separated by commas. */
  function ListText(vs: seq<Value>): string {
    if vs == [] then ""
    else if |vs| == 1 then Quoted(ValueText(vs[0]))
    else Quoted(ValueText(vs[0])) + ", " + ListText(vs[1..])
  }

  /** The printed filter. */
  function Printed(f: Filter): string {
    match f
    case Compare(field, op, value) => Quoted(field) + OpText(op) + Quoted(ValueText(value))
    case Between(field, low, high) => Quoted(field) + " " + Quoted(ValueText(low)) + " TO " + Quoted(ValueText(high))
    case In(field, values) => Quoted(field) + " IN [" + ListText(values) + "]"
    case Exists(field) => Quoted(field) + " EXISTS"
    case IsNull(field) => Quoted(field) + " IS NULL"
    case IsEmpty(field) => Quoted(field) + " IS EMPTY"
    case Not(filter) => "NOT (" + Printed(filter) + ")"
    case And(filters) => GroupText(filters, " AND ")
    case Or(filters) => GroupText(filters, " OR ")
  }

  /** Members in parentheses, with an operator in between. */
  function GroupText(fs: seq<Filter>, operator: string): string {
    if fs == [] then ""
    else if |fs| == 1 then "(" + Printed(fs[0]) + ")"
    else "(" + Printed(fs[0]) + ")" + operator + GroupText(fs[1..], operator)
  }

  // --- What can be printed ---

  function CheckValue(v: Value): Option<FilterError> {
    if v.Float? && !v.finite then Some(NonFiniteNumber) else None
  }

  function CheckValues(vs: seq<Value>): Option<FilterError> {
    if vs == [] then None
    else if CheckValue(vs[0]).Some? then CheckValue(vs[0])
    else CheckValues(vs[1..])
  }

  /** The first error met when printing. */
  function Check(f: Filter, depth: nat): Option<FilterError> {
    if depth > MAX_DEPTH then Some(TooDeep)
    else
      match f
      case Compare(_, _, value) => CheckValue(value)
      case Between(_, low, high) => if CheckValue(low).Some? then CheckValue(low) else CheckValue(high)
      case In(_, values) => CheckValues(values)
      case Exists(_) => None
      case IsNull(_) => None
      case IsEmpty(_) => None
      case Not(filter) => Check(filter, depth + 1)
      case And(filters) => if filters == [] then Some(EmptyGroup) else CheckAll(filters, depth + 1)
      case Or(filters) => if filters == [] then Some(EmptyGroup) else CheckAll(filters, depth + 1)
  }

  function CheckAll(fs: seq<Filter>, depth: nat): Option<FilterError> {
    if fs == [] then None
    else if Check(fs[0], depth).Some? then Check(fs[0], depth)
    else CheckAll(fs[1..], depth)
  }

  /** No group in the filter is empty. */
  predicate Grouped(f: Filter) {
    match f
    case Not(filter) => Grouped(filter)
    case And(filters) => filters != [] && forall i :: 0 <= i < |filters| ==> Grouped(filters[i])
    case Or(filters) => filters != [] && forall i :: 0 <= i < |filters| ==> Grouped(filters[i])
    case _ => true
  }

  predicate FiniteValue(v: Value) {
    v.Float? ==> v.finite
  }

  /** Every float in the filter is finite. */
  predicate Finite(f: Filter) {
    match f
    case Compare(_, _, value) => FiniteValue(value)
    case Between(_, low, high) => FiniteValue(low) && FiniteValue(high)
    case In(_, values) => forall i :: 0 <= i < |values| ==> FiniteValue(values[i])
    case Not(filter) => Finite(filter)
    case And(filters) => forall i :: 0 <= i < |filters| ==> Finite(filters[i])
    case Or(filters) => forall i :: 0 <= i < |filters| ==> Finite(filters[i])
    case _ => true
  }

  /** The filter nests at most `levels` groups and negations. */
  predicate Within(f: Filter, levels: int)
    decreases f
  {
    && levels >= 0
    && match f
       case Not(filter) => Within(filter, levels - 1)
       case And(filters) => forall i :: 0 <= i < |filters| ==> Within(filters[i], levels - 1)
       case Or(filters) => forall i :: 0 <= i < |filters| ==> Within(filters[i], levels - 1)
       case _ => true
  }

  lemma {:induction false} CheckValuesIs(vs: seq<Value>)
    ensures CheckValues(vs) == None <==> forall i :: 0 <= i < |vs| ==> FiniteValue(vs[i])
    ensures CheckValues(vs) == None || CheckValues(vs) == Some(NonFiniteNumber)
  {
    if vs != [] {
      CheckValuesIs(vs[1..]);
      assert forall i :: 1 <= i < |vs| ==> vs[i] == vs[1..][i - 1];
    }
  }

  lemma {:induction false} CheckAllIs(fs: seq<Filter>, depth: nat)
    ensures CheckAll(fs, depth) == None <==> forall i :: 0 <= i < |fs| ==> Check(fs[i], depth) == None
  {
    if fs != [] {
      CheckAllIs(fs[1..], depth);
      assert forall i :: 1 <= i < |fs| ==> fs[i] == fs[1..][i - 1];
    }
  }

  /** A filter prints exactly when no group is empty, every float is finite and
      it isn't nested too deeply. */
  lemma {:induction false} PrintsWhen(f: Filter, depth: nat)
    ensures Check(f, depth) == None <==> Grouped(f) && Finite(f) && Within(f, MAX_DEPTH - depth)
    decreases f
  {
    match f
    case In(_, values) => CheckValuesIs(values);
    case Not(filter) => PrintsWhen(filter, depth + 1);
    case And(filters) =>
      CheckAllIs(filters, depth + 1);
      forall i | 0 <= i < |filters|
        ensures Check(filters[i], depth + 1) == None <==> Grouped(filters[i]) && Finite(filters[i]) && Within(filters[i], MAX_DEPTH - depth - 1)
      {
        PrintsWhen(filters[i], depth + 1);
      }
    case Or(filters) =>
      CheckAllIs(filters, depth + 1);
      forall i | 0 <= i < |filters|
        ensures Check(filters[i], depth + 1) == None <==> Grouped(filters[i]) && Finite(filters[i]) && Within(filters[i], MAX_DEPTH - depth - 1)
      {
        PrintsWhen(filters[i], depth + 1);
      }
    case _ =>
  }

  // --- Reading an expression ---

  /** What an expression says: values by their text; a group of one is just its member. */
  datatype Tree =
    | Compares(field: string, op: Comparison, text: string)
    | Ranges(field: string, low: string, high: string)
    | OneOf(field: string, texts: seq<string>)
    | Present(field: string)
    | Null(field: string)
    | Empty(field: string)
    | Negated(tree: Tree)
    | Single(tree: Tree)
    | All(trees: seq<Tree>)
    | Any(trees: seq<Tree>)

  datatype Read<T> = Read(value: T, rest: string)

  predicate Starts(s: string, prefix: string) {
    |prefix| <= |s| && s[..|prefix|] == prefix
  }

  /** The rest of a quoted text, up to its closing quote. */
  function ReadEscaped(s: string): (r: Option<Read<string>>)
    ensures r.Some? ==> |r.value.rest| < |s|
    decreases |s|
  {
    if s == [] then None
    else if s[0] == '"' then Some(Read("", s[1..]))
    else if s[0] == '\\' then
      if |s| < 2 then None
      else
        match ReadEscaped(s[2..])
        case None => None
        case Some(r) => Some(Read([s[1]] + r.value, r.rest))
    else
      match ReadEscaped(s[1..])
      case None => None
      case Some(r) => Some(Read([s[0]] + r.value, r.rest))
  }

  function ReadQuoted(s: string): (r: Option<Read<string>>)
    ensures r.Some? ==> |r.value.rest| < |s|
  {
    if Starts(s, "\"") then ReadEscaped(s[1..]) else None
  }

  function ReadOp(s: string): (r: Option<Read<Comparison>>)
    ensures r.Some? ==> |r.value.rest| < |s|
  {
    if Starts(s, " = ") then Some(Read(Eq, s[3..]))
    else if Starts(s, " != ") then Some(Read(Ne, s[4..]))
    else if Starts(s, " > ") then Some(Read(Gt, s[3..]))
    else if Starts(s, " >= ") then Some(Read(Gte, s[4..]))
    else if Starts(s, " < ") then Some(Read(Lt, s[3..]))
    else if Starts(s, " <= ") then Some(Read(Lte, s[4..]))
    else None
  }

  /** Quoted texts separated by commas. */
  function ReadList(s: string): (r: Option<Read<seq<string>>>)
    ensures r.Some? ==> |r.value.rest| < |s|
    decreases |s|
  {
    match ReadQuoted(s)
    case None => None
    case Some(first) =>
      if Starts(first.rest, ", ") then
        match ReadList(first.rest[2..])
        case None => None
        case Some(r) => Some(Read([first.value] + r.value, r.rest))
      else Some(Read([first.value], first.rest))
  }

  /** What follows a field. */
  function ReadCondition(field: string, s: string): (r: Option<Read<Tree>>)
    ensures r.Some? ==> |r.value.rest| < |s|
  {
    if Starts(s, " EXISTS") then Some(Read(Present(field), s[7..]))
    else if Starts(s, " IS NULL") then Some(Read(Null(field), s[8..]))
    else if Starts(s, " IS EMPTY") then Some(Read(Empty(field), s[9..]))
    else if Starts(s, " IN []") then Some(Read(OneOf(field, []), s[6..]))
    else if Starts(s, " IN [") then
      match ReadList(s[5..])
      case None => None
      case Some(r) => if Starts(r.rest, "]") then Some(Read(OneOf(field, r.value), r.rest[1..])) else None
    else if Starts(s, " \"") then ReadRange(field, s[1..])
    else
      match ReadOp(s)
      case None => None
      case Some(op) =>
        match ReadQuoted(op.rest)
        case None => None
        case Some(r) => Some(Read(Compares(field, op.value, r.value), r.rest))
  }

  function ReadRange(field: string, s: string): (r: Option<Read<Tree>>)
    ensures r.Some? ==> |r.value.rest| < |s|
  {
    match ReadQuoted(s)
    case None => None
    case Some(low) =>
      if !Starts(low.rest, " TO ") then None
      else
        match ReadQuoted(low.rest[4..])
        case None => None
        case Some(high) => Some(Read(Ranges(field, low.value, high.value), high.rest))
  }

  function ReadExpression(s: string): (r: Option<Read<Tree>>)
    ensures r.Some? ==> |r.value.rest| < |s|
    decreases |s|, 1
  {
    if Starts(s, "NOT ") then
      match ReadMember(s[4..])
      case None => None
      case Some(r) => Some(Read(Negated(r.value), r.rest))
    else if Starts(s, "(") then
      match ReadMember(s)
      case None => None
      case Some(first) =>
        if Starts(first.rest, " AND ") then
          match ReadMembers(first.rest[5..], " AND ")
          case None => None
          case Some(r) => Some(Read(All([first.value] + r.value), r.rest))
        else if Starts(first.rest, " OR ") then
          match ReadMembers(first.rest[4..], " OR ")
          case None => None
          case Some(r) => Some(Read(Any([first.value] + r.value), r.rest))
        else Some(Read(Single(first.value), first.rest))
    else
      match ReadQuoted(s)
      case None => None
      case Some(field) => ReadCondition(field.value, field.rest)
  }

  /** An expression in parentheses. */
  function ReadMember(s: string): (r: Option<Read<Tree>>)
    ensures r.Some? ==> |r.value.rest| < |s|
    decreases |s|, 0
  {
    if !Starts(s, "(") then None
    else
      match ReadExpression(s[1..])
      case None => None
      case Some(r) => if Starts(r.rest, ")") then Some(Read(r.value, r.rest[1..])) else None
  }

  /** Members separated by an operator. */
  function ReadMembers(s: string, operator: string): (r: Option<Read<seq<Tree>>>)
    ensures r.Some? ==> |r.value.rest| < |s|
    decreases |s|, 1
  {
    match ReadMember(s)
    case None => None
    case Some(first) =>
      if Starts(first.rest, operator) then
        match ReadMembers(first.rest[|operator|..], operator)
        case None => None
        case Some(r) => Some(Read([first.value] + r.value, r.rest))
      else Some(Read([first.value], first.rest))
  }

  /** A filter up to the text of its values and to the operator of groups of one. */
  function TreeOf(f: Filter): Tree {
    match f
    case Compare(field, op, value) => Compares(field, op, ValueText(value))
    case Between(field, low, high) => Ranges(field, ValueText(low), ValueText(high))
    case In(field, values) => OneOf(field, Texts(values))
    case Exists(field) => Present(field)
    case IsNull(field) => Null(field)
    case IsEmpty(field) => Empty(field)
    case Not(filter) => Negated(TreeOf(filter))
    case And(filters) => if |filters| == 1 then Single(TreeOf(filters[0])) else All(TreesOf(filters))
    case Or(filters) => if |filters| == 1 then Single(TreeOf(filters[0])) else Any(TreesOf(filters))
  }

  function TreesOf(fs: seq<Filter>): seq<Tree> {
    if fs == [] then [] else [TreeOf(fs[0])] + TreesOf(fs[1..])
  }

  function Texts(vs: seq<Value>): seq<string> {
    if vs == [] then [] else [ValueText(vs[0])] + Texts(vs[1..])
  }

  // --- Reading values ---

  predicate IsDigit(c: char) {
    '0' <= c <= '9'
  }

  /** The number whose decimal digits these are. */
  function NumeralValue(s: string): int {
    if s == [] then 0
    else
      var n := |s| - 1;
      NumeralValue(s[..n]) * 10 + (s[n] as int - '0' as int)
  }

  function ReadNatural(s: string): Option<int> {
    if s != [] && forall i :: 0 <= i < |s| ==> IsDigit(s[i]) then Some(NumeralValue(s)) else None
  }

  /** A number with an optional sign. */
  function ReadInteger(s: string): Option<int> {
    if !Starts(s, "-") then ReadNatural(s)
    else
      match ReadNatural(s[1..])
      case None => None
      case Some(n) => Some(-n)
  }

  function ReadBool(s: string): Option<bool> {
    if s == "true" then Some(true) else if s == "false" then Some(false) else None
  }

  /** What the text of a value says. */
  predicate Denotes(text: string, v: Value) {
    match v
    case Bool(b) => ReadBool(text) == Some(b)
    case Int(n) => ReadInteger(text) == Some(n)
    case UInt(u) => ReadNatural(text) == Some(u)
    case Float(_, digits) => text == digits
    case Text(s) => text == s
  }

  predicate AllDenote(texts: seq<string>, vs: seq<Value>) {
    |texts| == |vs| && forall i :: 0 <= i < |vs| ==> Denotes(texts[i], vs[i])
  }

  /** The expression says what the filter asks; a group of one is its member. */
  predicate Says(t: Tree, f: Filter)
    decreases f
  {
    match f
    case Compare(field, op, value) => t.Compares? && t.field == field && t.op == op && Denotes(t.text, value)
    case Between(field, low, high) => t.Ranges? && t.field == field && Denotes(t.low, low) && Denotes(t.high, high)
    case In(field, values) => t.OneOf? && t.field == field && AllDenote(t.texts, values)
    case Exists(field) => t == Present(field)
    case IsNull(field) => t == Null(field)
    case IsEmpty(field) => t == Empty(field)
    case Not(filter) => t.Negated? && Says(t.tree, filter)
    case And(filters) =>
      if |filters| == 1 then t.Single? && Says(t.tree, filters[0])
      else t.All? && |t.trees| == |filters| && forall i :: 0 <= i < |filters| ==> Says(t.trees[i], filters[i])
    case Or(filters) =>
      if |filters| == 1 then t.Single? && Says(t.tree, filters[0])
      else t.Any? && |t.trees| == |filters| && forall i :: 0 <= i < |filters| ==> Says(t.trees[i], filters[i])
  }

  lemma NumeralSnoc(s: string, d: nat)
    requires d < 10
    ensures NumeralValue(s + [Digit(d)]) == NumeralValue(s) * 10 + d
    ensures IsDigit(Digit(d))
  {
    assert (s + [Digit(d)])[..|s|] == s;
  }

  lemma {:induction false} NaturalDigits(n: nat)
    ensures Natural(n) != [] && forall i :: 0 <= i < |Natural(n)| ==> IsDigit(Natural(n)[i])
    ensures Natural(n)[0] == '0' ==> n == 0
    decreases n
  {
    if n >= 10 {
      NaturalDigits(n / 10);
    }
  }

  lemma {:induction false} NaturalValue(n: nat)
    ensures NumeralValue(Natural(n)) == n
    decreases n
  {
    hide NumeralValue;
    if n < 10 {
      NumeralOne(n);
    } else {
      NaturalValue(n / 10);
      NumeralSnoc(Natural(n / 10), n % 10);
    }
  }

  lemma NumeralOne(d: nat)
    requires d < 10
    ensures NumeralValue([Digit(d)]) == d
  {
    NumeralSnoc([], d);
    assert [] + [Digit(d)] == [Digit(d)];
  }

  lemma NaturalReads(n: nat)
    ensures ReadNatural(Natural(n)) == Some(n)
    ensures Natural(n)[0] == '0' ==> n == 0
  {
    hide NumeralValue, Natural;
    NaturalDigits(n);
    NaturalValue(n);
  }

  /** The text of a value says the value: truth values by name, numbers in
      decimal, with a minus sign exactly if negative and no needless zeros. */
  lemma ValueReads(v: Value)
    ensures Denotes(ValueText(v), v)
    ensures v.Int? || v.UInt? ==>
              var s := ValueText(v);
              s != "" && (s[0] == '0' ==> s == "0") && (s[0] == '-' ==> |s| > 1 && s[1] != '0')
  {
    hide NumeralValue;
    match v
    case Int(n) =>
      NaturalReads(if n < 0 then -n else n);
      if n < 0 {
        assert ("-" + Natural(-n))[1..] == Natural(-n);
      }
    case UInt(u) => NaturalReads(u);
    case _ =>
  }

  lemma {:induction false} TextsAre(vs: seq<Value>)
    ensures AllDenote(Texts(vs), vs)
  {
    hide ValueText, Denotes;
    if vs != [] {
      TextsAre(vs[1..]);
      ValueReads(vs[0]);
      assert Texts(vs) == [ValueText(vs[0])] + Texts(vs[1..]);
    }
  }

  lemma {:induction false} TreesAre(fs: seq<Filter>)
    ensures |TreesOf(fs)| == |fs| && forall i :: 0 <= i < |fs| ==> TreesOf(fs)[i] == TreeOf(fs[i])
  {
    hide TreeOf;
    if fs != [] {
      TreesAre(fs[1..]);
    }
  }

  /** The tree of a filter says what it asks. */
  lemma {:induction false} TreeSays(f: Filter)
    ensures Says(TreeOf(f), f)
    decreases f
  {
    hide ValueText, Denotes;
    match f
    case Compare(_, _, value) => ValueReads(value);
    case Between(_, low, high) =>
      ValueReads(low);
      ValueReads(high);
    case In(_, values) => TextsAre(values);
    case Not(filter) => TreeSays(filter);
    case And(filters) => MembersSay(f, filters);
    case Or(filters) => MembersSay(f, filters);
    case _ =>
  }

  lemma {:induction false} MembersSay(f: Filter, fs: seq<Filter>)
    requires f == And(fs) || f == Or(fs)
    ensures |TreesOf(fs)| == |fs| && forall i :: 0 <= i < |fs| ==> Says(TreesOf(fs)[i], fs[i])
    ensures |fs| == 1 ==> Says(TreeOf(fs[0]), fs[0])
    decreases f, 0
  {
    hide TreeOf, Says;
    TreesAre(fs);
    forall i | 0 <= i < |fs|
      ensures Says(TreeOf(fs[i]), fs[i])
    {
      TreeSays(fs[i]);
    }
  }

  /** Which error is reported has its reason in the filter. */
  lemma {:induction false} ErrorsMean(f: Filter, depth: nat)
    ensures Check(f, depth) == Some(EmptyGroup) ==> !Grouped(f)
    ensures Check(f, depth) == Some(NonFiniteNumber) ==> !Finite(f)
    ensures Check(f, depth) == Some(TooDeep) ==> !Within(f, MAX_DEPTH - depth)
    decreases f
  {
    match f
    case In(_, values) => CheckValuesIs(values);
    case Not(filter) => ErrorsMean(filter, depth + 1);
    case And(filters) => MembersMean(f, filters, depth);
    case Or(filters) => MembersMean(f, filters, depth);
    case _ =>
  }

  lemma {:induction false} MembersMean(f: Filter, fs: seq<Filter>, depth: nat)
    requires f == And(fs) || f == Or(fs)
    ensures CheckAll(fs, depth + 1) == Some(EmptyGroup) ==> exists i :: 0 <= i < |fs| && !Grouped(fs[i])
    ensures CheckAll(fs, depth + 1) == Some(NonFiniteNumber) ==> exists i :: 0 <= i < |fs| && !Finite(fs[i])
    ensures CheckAll(fs, depth + 1) == Some(TooDeep) ==> exists i :: 0 <= i < |fs| && !Within(fs[i], MAX_DEPTH - depth - 1)
    decreases f, 0
  {
    hide Check, Grouped, Finite, Within;
    if CheckAll(fs, depth + 1).Some? {
      var i := FirstError(fs, depth + 1);
      ErrorsMean(fs[i], depth + 1);
    }
  }

  lemma {:induction false} FirstError(fs: seq<Filter>, depth: nat) returns (i: nat)
    requires CheckAll(fs, depth).Some?
    ensures i < |fs| && Check(fs[i], depth) == CheckAll(fs, depth)
    ensures forall k :: 0 <= k < i ==> Check(fs[k], depth) == None
  {
    hide Check;
    if Check(fs[0], depth).Some? {
      i := 0;
    } else {
      var k := FirstError(fs[1..], depth);
      i := k + 1;
      assert forall k :: 1 <= k < |fs| ==> fs[k] == fs[1..][k - 1];
    }
  }

  // --- Round trips ---

  lemma EscapedChar(c: char, after: string, r: Read<string>)
    requires ReadEscaped(after) == Some(r)
    ensures ReadEscaped(['\\', c] + after) == Some(Read([c] + r.value, r.rest))
    ensures c != '"' && c != '\\' ==> ReadEscaped([c] + after) == Some(Read([c] + r.value, r.rest))
  {
    assert (['\\', c] + after)[2..] == after;
    assert ([c] + after)[1..] == after;
  }

  /** Any text is read back from its quotes. */
  lemma {:induction false} EscapedReads(text: string, rest: string)
    ensures ReadEscaped(Escaped(text) + ("\"" + rest)) == Some(Read(text, rest))
    decreases |text|
  {
    hide ReadEscaped;
    if text == [] {
      assert Escaped(text) + ("\"" + rest) == "\"" + rest;
      ClosingQuote(rest);
    } else {
      var c := text[0];
      var after := Escaped(text[1..]) + ("\"" + rest);
      EscapedReads(text[1..], rest);
      EscapedChar(c, after, Read(text[1..], rest));
      assert [c] + text[1..] == text;
      var head := if c == '"' || c == '\\' then ['\\', c] else [c];
      assert Escaped(text) + ("\"" + rest) == head + after;
    }
  }

  lemma ClosingQuote(rest: string)
    ensures ReadEscaped("\"" + rest) == Some(Read("", rest))
  {
    assert ("\"" + rest)[1..] == rest;
  }

  lemma QuotedReads(text: string, rest: string)
    ensures ReadQuoted(Quoted(text) + rest) == Some(Read(text, rest))
  {
    hide ReadEscaped, Escaped;
    var s := Quoted(text) + rest;
    assert s == "\"" + (Escaped(text) + ("\"" + rest));
    assert s[1..] == Escaped(text) + ("\"" + rest);
    EscapedReads(text, rest);
  }

  lemma NotStarts(s: string, prefix: string, i: nat)
    requires i < |s| && i < |prefix| && s[i] != prefix[i]
    ensures !Starts(s, prefix)
  {
    assert |prefix| <= |s| ==> s[..|prefix|][i] == s[i];
  }

  lemma OpReads(op: Comparison, rest: string)
    ensures ReadOp(OpText(op) + rest) == Some(Read(op, rest))
  {
    var s := OpText(op) + rest;
    assert Starts(s, OpText(op)) && s[|OpText(op)|..] == rest;
    if !op.Eq? {
      NotStarts(s, " = ", 1);
    }
    if op.Gt? || op.Gte? || op.Lt? || op.Lte? {
      NotStarts(s, " != ", 1);
    }
    if op.Gte? {
      NotStarts(s, " > ", 2);
    }
    if op.Lt? || op.Lte? {
      NotStarts(s, " > ", 1);
      NotStarts(s, " >= ", 1);
    }
    if op.Lte? {
      NotStarts(s, " < ", 2);
    }
  }

  lemma {:induction false} ListReads(vs: seq<Value>, rest: string)
    requires vs != [] && rest != "" && rest[0] == ']'
    ensures ReadList(ListText(vs) + rest) == Some(Read(Texts(vs), rest))
    decreases |vs|
  {
    hide ReadQuoted, Quoted, ValueText;
    var first := Quoted(ValueText(vs[0]));
    if |vs| == 1 {
      QuotedReads(ValueText(vs[0]), rest);
      NotStarts(rest, ", ", 0);
      assert Texts(vs[1..]) == [];
      assert Texts(vs) == [ValueText(vs[0])];
      assert ListText(vs) == first;
    } else {
      var after := ListText(vs[1..]) + rest;
      assert ListText(vs) + rest == first + (", " + after);
      QuotedReads(ValueText(vs[0]), ", " + after);
      assert (", " + after)[2..] == after;
      ListReads(vs[1..], rest);
    }
  }

  lemma NoWords(s: string)
    requires |s| >= 2 && s[1] != 'E' && s[1] != 'I'
    ensures !Starts(s, " EXISTS") && !Starts(s, " IS NULL") && !Starts(s, " IS EMPTY") && !Starts(s, " IN []") && !Starts(s, " IN [")
  {
    NotStarts(s, " EXISTS", 1);
    NotStarts(s, " IS NULL", 1);
    NotStarts(s, " IS EMPTY", 1);
    NotStarts(s, " IN []", 1);
    NotStarts(s, " IN [", 1);
  }

  lemma CompareReads(field: string, op: Comparison, text: string, rest: string)
    ensures ReadCondition(field, OpText(op) + Quoted(text) + rest) == Some(Read(Compares(field, op, text), rest))
  {
    hide ReadQuoted, Quoted, ReadOp;
    var s := OpText(op) + (Quoted(text) + rest);
    assert s == OpText(op) + Quoted(text) + rest;
    NoWords(s);
    NotStarts(s, " \"", 1);
    OpReads(op, Quoted(text) + rest);
    QuotedReads(text, rest);
  }

  lemma RangeReads(field: string, low: string, high: string, rest: string)
    ensures ReadCondition(field, " " + Quoted(low) + " TO " + Quoted(high) + rest) == Some(Read(Ranges(field, low, high), rest))
  {
    var after := Quoted(high) + rest;
    var s := " " + (Quoted(low) + (" TO " + after));
    assert s == " " + Quoted(low) + " TO " + Quoted(high) + rest;
    assert s[1] == '"';
    NoWords(s);
    assert s[..2] == " \"" && s[1..] == Quoted(low) + (" TO " + after);
    hide ReadQuoted, Quoted;
    QuotedReads(low, " TO " + after);
    assert (" TO " + after)[..4] == " TO " && (" TO " + after)[4..] == after;
    QuotedReads(high, rest);
  }

  lemma WordReads(field: string, rest: string)
    ensures ReadCondition(field, " EXISTS" + rest) == Some(Read(Present(field), rest))
    ensures ReadCondition(field, " IS NULL" + rest) == Some(Read(Null(field), rest))
    ensures ReadCondition(field, " IS EMPTY" + rest) == Some(Read(Empty(field), rest))
  {
    assert Starts(" EXISTS" + rest, " EXISTS") && (" EXISTS" + rest)[7..] == rest;
    assert Starts(" IS NULL" + rest, " IS NULL") && (" IS NULL" + rest)[8..] == rest;
    assert Starts(" IS EMPTY" + rest, " IS EMPTY") && (" IS EMPTY" + rest)[9..] == rest;
    NotStarts(" IS NULL" + rest, " EXISTS", 1);
    NotStarts(" IS EMPTY" + rest, " EXISTS", 1);
    NotStarts(" IS EMPTY" + rest, " IS NULL", 4);
  }

  lemma InReads(field: string, vs: seq<Value>, rest: string)
    ensures ReadCondition(field, " IN [" + ListText(vs) + "]" + rest) == Some(Read(OneOf(field, Texts(vs)), rest))
  {
    var s := " IN [" + (ListText(vs) + ("]" + rest));
    assert s == " IN [" + ListText(vs) + "]" + rest;
    NotStarts(s, " EXISTS", 1);
    NotStarts(s, " IS NULL", 2);
    NotStarts(s, " IS EMPTY", 2);
    if vs == [] {
      assert s == " IN []" + rest;
      assert Starts(s, " IN []") && s[6..] == rest;
    } else {
      assert s[5] == '"';
      NotStarts(s, " IN []", 5);
      assert Starts(s, " IN [") && s[5..] == ListText(vs) + ("]" + rest);
      hide ReadList, ListText;
      ListReads(vs, "]" + rest);
      assert Starts("]" + rest, "]") && ("]" + rest)[1..] == rest;
    }
  }

  /** Where an expression ends. */
  ghost predicate Stop(rest: string) {
    rest == "" || rest[0] == ')'
  }

  lemma StopIs(rest: string)
    requires Stop(rest)
    ensures !Starts(rest, " AND ") && !Starts(rest, " OR ")
  {
    if rest != "" {
      NotStarts(rest, " AND ", 0);
      NotStarts(rest, " OR ", 0);
    }
  }

  /** An expression that starts with a field. */
  lemma FieldReads(field: string, after: string)
    ensures ReadExpression(Quoted(field) + after) == ReadCondition(field, after)
  {
    hide ReadCondition, ReadMember, ReadMembers;
    var s := Quoted(field) + after;
    assert s[0] == '"';
    NotStarts(s, "NOT ", 0);
    NotStarts(s, "(", 0);
    hide ReadQuoted, Quoted;
    QuotedReads(field, after);
  }

  predicate Atomic(f: Filter) {
    !f.Not? && !f.And? && !f.Or?
  }

  lemma AtomicReads(f: Filter, rest: string)
    requires Atomic(f)
    ensures ReadExpression(Printed(f) + rest) == Some(Read(TreeOf(f), rest))
  {
    hide ReadExpression, ReadCondition, Quoted, OpText, ListText, ValueText;
    match f
    case Compare(field, op, value) =>
      var after := OpText(op) + Quoted(ValueText(value)) + rest;
      assert Printed(f) + rest == Quoted(field) + after;
      FieldReads(field, after);
      CompareReads(field, op, ValueText(value), rest);
    case Between(field, low, high) =>
      var after := " " + Quoted(ValueText(low)) + " TO " + Quoted(ValueText(high)) + rest;
      assert Printed(f) + rest == Quoted(field) + after;
      FieldReads(field, after);
      RangeReads(field, ValueText(low), ValueText(high), rest);
    case In(field, values) =>
      var after := " IN [" + ListText(values) + "]" + rest;
      assert Printed(f) + rest == Quoted(field) + after;
      FieldReads(field, after);
      InReads(field, values, rest);
    case Exists(field) =>
      assert Printed(f) + rest == Quoted(field) + (" EXISTS" + rest);
      FieldReads(field, " EXISTS" + rest);
      WordReads(field, rest);
    case IsNull(field) =>
      assert Printed(f) + rest == Quoted(field) + (" IS NULL" + rest);
      FieldReads(field, " IS NULL" + rest);
      WordReads(field, rest);
    case IsEmpty(field) =>
      assert Printed(f) + rest == Quoted(field) + (" IS EMPTY" + rest);
      FieldReads(field, " IS EMPTY" + rest);
      WordReads(field, rest);
  }

  /** A member of a group is read up to its closing parenthesis. */
  lemma {:induction false} MemberReads(f: Filter, rest: string)
    requires Grouped(f)
    ensures ReadMember("(" + Printed(f) + ")" + rest) == Some(Read(TreeOf(f), rest))
    decreases f, 1
  {
    hide ReadExpression, Printed, TreeOf, Grouped;
    var s := "(" + (Printed(f) + (")" + rest));
    assert s == "(" + Printed(f) + ")" + rest;
    assert Starts(s, "(") && s[1..] == Printed(f) + (")" + rest);
    Reads(f, ")" + rest);
    assert Starts(")" + rest, ")") && (")" + rest)[1..] == rest;
  }

  lemma {:induction false} MembersRead(fs: seq<Filter>, operator: string, rest: string)
    requires fs != [] && (forall i :: 0 <= i < |fs| ==> Grouped(fs[i])) && Stop(rest)
    requires operator == " AND " || operator == " OR "
    ensures ReadMembers(GroupText(fs, operator) + rest, operator) == Some(Read(TreesOf(fs), rest))
    decreases fs, 2
  {
    hide ReadMember, Printed, TreeOf, Grouped;
    var first := "(" + Printed(fs[0]) + ")";
    StopIs(rest);
    if |fs| == 1 {
      MemberReads(fs[0], rest);
      assert TreesOf(fs[1..]) == [];
      assert TreesOf(fs) == [TreeOf(fs[0])];
      assert GroupText(fs, operator) == first;
    } else {
      var after := GroupText(fs[1..], operator) + rest;
      assert GroupText(fs, operator) + rest == first + (operator + after);
      MemberReads(fs[0], operator + after);
      assert Starts(operator + after, operator) && (operator + after)[|operator|..] == after;
      MembersRead(fs[1..], operator, rest);
    }
  }

  /** What a group reads as. */
  lemma {:induction false} GroupReads(fs: seq<Filter>, operator: string, rest: string)
    requires fs != [] && (forall i :: 0 <= i < |fs| ==> Grouped(fs[i])) && Stop(rest)
    requires operator == " AND " || operator == " OR "
    ensures ReadExpression(GroupText(fs, operator) + rest) ==
            Some(Read(if |fs| == 1 then Single(TreeOf(fs[0]))
                      else if operator == " AND " then All(TreesOf(fs)) else Any(TreesOf(fs)), rest))
    decreases fs, 3
  {
    hide ReadMember, ReadMembers, Printed, TreeOf, Grouped, ReadQuoted, ReadCondition;
    var first := "(" + Printed(fs[0]) + ")";
    var after := if |fs| == 1 then rest else operator + (GroupText(fs[1..], operator) + rest);
    var s := GroupText(fs, operator) + rest;
    assert s == first + after;
    assert s[0] == '(';
    NotStarts(s, "NOT ", 0);
    MemberReads(fs[0], after);
    if |fs| == 1 {
      StopIs(rest);
    } else {
      assert Starts(after, operator) && after[|operator|..] == GroupText(fs[1..], operator) + rest;
      if operator == " OR " {
        NotStarts(after, " AND ", 1);
      }
      MembersRead(fs[1..], operator, rest);
    }
  }

  /** Whatever a filter without empty groups prints, and whatever quotes,
      backslashes, parentheses and operators its texts contain, reading it gives
      the filter back. */
  lemma {:induction false} Reads(f: Filter, rest: string)
    requires Grouped(f) && Stop(rest)
    ensures ReadExpression(Printed(f) + rest) == Some(Read(TreeOf(f), rest))
    decreases f, 0
  {
    hide ReadExpression, ReadMember;
    match f
    case Not(filter) =>
      NotReads(filter, rest);
    case And(filters) => GroupReads(filters, " AND ", rest);
    case Or(filters) => GroupReads(filters, " OR ", rest);
    case _ => AtomicReads(f, rest);
  }

  lemma {:induction false} NotReads(f: Filter, rest: string)
    requires Grouped(f)
    ensures ReadExpression("NOT (" + Printed(f) + ")" + rest) == Some(Read(Negated(TreeOf(f)), rest))
    decreases f, 2
  {
    hide ReadMember, Printed, TreeOf, Grouped, ReadMembers, ReadQuoted, ReadCondition;
    var member := "(" + Printed(f) + ")" + rest;
    var s := "NOT " + member;
    assert s == "NOT (" + Printed(f) + ")" + rest;
    assert Starts(s, "NOT ") && s[4..] == member;
    MemberReads(f, rest);
  }

  /** The whole text is an expression that says what the filter asks. */
  predicate ReadsAs(text: string, f: Filter) {
    var r := ReadExpression(text);
    r.Some? && r.value.rest == "" && Says(r.value.value, f)
  }

  /** Whatever it contains, a printed filter reads as an expression that says what
      the filter asks. */
  lemma PrintSays(f: Filter)
    requires Check(f, 0) == None
    ensures ReadsAs(Printed(f), f)
  {
    hide Printed, TreeOf, ReadExpression;
    PrintsWhen(f, 0);
    Reads(f, "");
    TreeSays(f);
    assert Printed(f) + "" == Printed(f);
  }

  /** Printing is invertible: two filters that print alike differ at most in how
      their values are typed and in the operator of groups of one. */
  lemma PrintedInjective(f: Filter, g: Filter)
    requires Check(f, 0) == None && Check(g, 0) == None && Printed(f) == Printed(g)
    ensures TreeOf(f) == TreeOf(g)
  {
    PrintsWhen(f, 0);
    PrintsWhen(g, 0);
    Reads(f, "");
    Reads(g, "");
    assert Printed(f) + "" == Printed(f) && Printed(g) + "" == Printed(g);
  }

  // --- As the source writes it ---

  /** Text being written. */
  class Output {
    var text: string

    constructor ()
      ensures text == ""
    {
      text := "";
    }

    method Push(s: string)
      modifies this
      ensures text == old(text) + s
    {
      text := text + s;
    }

    /** Appends `s` as a quoted literal. */
    method Quote(s: string)
      modifies this
      ensures text == old(text) + Quoted(s)
    {
      Push("\"");
      for i := 0 to |s|
        invariant text + Escaped(s[i..]) == old(text) + "\"" + Escaped(s)
      {
        ghost var before := text;
        assert s[i..][1..] == s[i + 1..];
        if s[i] == '"' || s[i] == '\\' {
          Push("\\");
        }
        Push([s[i]]);
        assert text + Escaped(s[i + 1..]) == before + Escaped(s[i..]);
      }
      assert s[|s|..] == [] && text + "" == text;
      Push("\"");
    }

    method WriteValue(v: Value) returns (error: Option<FilterError>)
      modifies this
      ensures error == CheckValue(v)
      ensures error == None ==> text == old(text) + Quoted(ValueText(v))
    {
      error := None;
      match v
      case Bool(b) => Quote(if b then "true" else "false");
      case Int(n) => QuoteDisplay(Decimal(n));
      case UInt(u) => QuoteDisplay(Decimal(u));
      case Float(finite, digits) =>
        if finite {
          QuoteDisplay(digits);
        } else {
          return Some(NonFiniteNumber);
        }
      case Text(t) => Quote(t);
    }

    /** Writes a number in quotes, which needs no escaping. */
    method QuoteDisplay(digits: Digits)
      modifies this
      ensures text == old(text) + Quoted(digits)
    {
      PlainEscaped(digits);
      Push("\"" + digits + "\"");
    }

    /** Writes the values of a list. */
    method WriteValues(vs: seq<Value>) returns (error: Option<FilterError>)
      modifies this
      ensures error == CheckValues(vs)
      ensures error == None ==> text == old(text) + ListText(vs)
    {
      hide ListText, CheckValues, Quoted, ValueText;
      ghost var start := text;
      assert CheckValues([]) == None && ListText([]) == "" by { NoValues(); }
      assert vs[0..] == vs && vs[|vs|..] == [];
      for i := 0 to |vs|
        invariant CheckValues(vs) == CheckValues(vs[i..])
        invariant start + ListText(vs) == text + (if 0 < i < |vs| then ", " else "") + ListText(vs[i..])
      {
        ListTail(vs, i);
        if i > 0 {
          Push(", ");
        }
        ghost var before := text;
        error := WriteValue(vs[i]);
        if error.Some? {
          return;
        }
        assert before + ListText(vs[i..]) == text + (if i + 1 < |vs| then ", " else "") + ListText(vs[i + 1..]);
      }
      error := None;
    }

    method WriteCompare(field: string, op: Comparison, value: Value) returns (error: Option<FilterError>)
      modifies this
      ensures error == CheckValue(value)
      ensures error == None ==> text == old(text) + (Quoted(field) + OpText(op) + Quoted(ValueText(value)))
    {
      hide Quoted, ValueText;
      Quote(field);
      Push(OpText(op));
      error := WriteValue(value);
    }

    method WriteBetween(field: string, low: Value, high: Value) returns (error: Option<FilterError>)
      modifies this
      ensures error == if CheckValue(low).Some? then CheckValue(low) else CheckValue(high)
      ensures error == None ==> text == old(text) + (Quoted(field) + " " + Quoted(ValueText(low)) + " TO " + Quoted(ValueText(high)))
    {
      hide Quoted, ValueText;
      Quote(field);
      Push(" ");
      error := WriteValue(low);
      if error.None? {
        Push(" TO ");
        error := WriteValue(high);
      }
    }

    method WriteIn(field: string, values: seq<Value>) returns (error: Option<FilterError>)
      modifies this
      ensures error == CheckValues(values)
      ensures error == None ==> text == old(text) + (Quoted(field) + " IN [" + ListText(values) + "]")
    {
      hide Quoted, ListText;
      Quote(field);
      Push(" IN [");
      error := WriteValues(values);
      if error.None? {
        Push("]");
      }
    }

    method Postfix(field: string, operator: string)
      modifies this
      ensures text == old(text) + (Quoted(field) + operator)
    {
      hide Quoted;
      Quote(field);
      Push(operator);
    }

    /** Writes a filter, up to the first error. */
    method Write(f: Filter, depth: nat) returns (error: Option<FilterError>)
      modifies this
      ensures error == Check(f, depth)
      ensures error == None ==> text == old(text) + Printed(f)
      decreases f, 1
    {
      hide Quoted, ListText, GroupText, ValueText, CheckValues, CheckAll, Natural;
      if depth > MAX_DEPTH {
        return Some(TooDeep);
      }
      error := None;
      match f
      case Compare(field, op, value) =>
        error := WriteCompare(field, op, value);
      case Between(field, low, high) =>
        error := WriteBetween(field, low, high);
      case In(field, values) =>
        error := WriteIn(field, values);
      case Exists(field) =>
        Postfix(field, " EXISTS");
      case IsNull(field) =>
        Postfix(field, " IS NULL");
      case IsEmpty(field) =>
        Postfix(field, " IS EMPTY");
      case Not(filter) =>
        Push("NOT ");
        error := WriteGrouped(filter, depth);
      case And(filters) => error := WriteGroup(filters, " AND ", depth);
      case Or(filters) => error := WriteGroup(filters, " OR ", depth);
    }

    /** Appends a filter that is the operand of another. */
    method WriteGrouped(f: Filter, depth: nat) returns (error: Option<FilterError>)
      modifies this
      ensures error == Check(f, depth + 1)
      ensures error == None ==> text == old(text) + ("(" + Printed(f) + ")")
      decreases f, 2
    {
      Push("(");
      error := Write(f, depth + 1);
      if error.None? {
        Push(")");
      }
    }

    method WriteGroup(fs: seq<Filter>, operator: string, depth: nat) returns (error: Option<FilterError>)
      modifies this
      ensures error == if fs == [] then Some(EmptyGroup) else CheckAll(fs, depth + 1)
      ensures error == None ==> text == old(text) + GroupText(fs, operator)
      decreases fs, 3
    {
      hide Printed, Check, GroupText, CheckAll;
      if fs == [] {
        return Some(EmptyGroup);
      }
      ghost var start := text;
      NoFilters(operator, depth + 1);
      assert fs[0..] == fs && fs[|fs|..] == [];
      for i := 0 to |fs|
        invariant CheckAll(fs, depth + 1) == CheckAll(fs[i..], depth + 1)
        invariant start + GroupText(fs, operator) == text + (if 0 < i < |fs| then operator else "") + GroupText(fs[i..], operator)
      {
        GroupTail(fs, i, operator, depth + 1);
        if i > 0 {
          Push(operator);
        }
        ghost var before := text;
        error := WriteGrouped(fs[i], depth);
        if error.Some? {
          return;
        }
        assert before + GroupText(fs[i..], operator) == text + (if i + 1 < |fs| then operator else "") + GroupText(fs[i + 1..], operator);
      }
      error := None;
    }
  }

  lemma NoFilters(operator: string, depth: nat)
    ensures CheckAll([], depth) == None && GroupText([], operator) == ""
  {
  }

  /** Printing the rest of a group starts with its first member. */
  lemma GroupTail(fs: seq<Filter>, i: nat, operator: string, depth: nat)
    requires i < |fs|
    ensures CheckAll(fs[i..], depth) == if Check(fs[i], depth).Some? then Check(fs[i], depth) else CheckAll(fs[i + 1..], depth)
    ensures GroupText(fs[i..], operator) ==
            "(" + Printed(fs[i]) + ")" + (if i + 1 < |fs| then operator else "") + GroupText(fs[i + 1..], operator)
  {
    hide Printed, Check;
    assert fs[i..][1..] == fs[i + 1..] && fs[i..][0] == fs[i];
    if i + 1 == |fs| {
      assert GroupText(fs[i + 1..], operator) == "";
    }
  }

  lemma NoValues()
    ensures CheckValues([]) == None && ListText([]) == ""
  {
  }

  /** Printing the rest of a list starts with its first value. */
  lemma ListTail(vs: seq<Value>, i: nat)
    requires i < |vs|
    ensures CheckValues(vs[i..]) == if CheckValue(vs[i]).Some? then CheckValue(vs[i]) else CheckValues(vs[i + 1..])
    ensures ListText(vs[i..]) == Quoted(ValueText(vs[i])) + (if i + 1 < |vs| then ", " else "") + ListText(vs[i + 1..])
  {
    hide Quoted, ValueText;
    assert vs[i..][1..] == vs[i + 1..] && vs[i..][0] == vs[i];
  }

  lemma {:induction false} PlainEscaped(text: string)
    requires Plain(text)
    ensures Escaped(text) == text
  {
    if text != [] {
      assert text[0] in text && forall c :: c in text[1..] ==> c in text;
      PlainEscaped(text[1..]);
    }
  }

  /** The filter as an expression, which reads back as the filter, or the first
      error: it is printed exactly when no group is empty, every float is finite
      and it nests at most `MAX_DEPTH` levels. */
  method Render(f: Filter) returns (text: string, error: Option<FilterError>)
    ensures error == None <==> Grouped(f) && Finite(f) && Within(f, MAX_DEPTH)
    ensures error == None ==> text == Printed(f) && ReadsAs(text, f)
    ensures error == Some(EmptyGroup) ==> !Grouped(f)
    ensures error == Some(NonFiniteNumber) ==> !Finite(f)
    ensures error == Some(TooDeep) ==> !Within(f, MAX_DEPTH)
    ensures error == Check(f, 0)
  {
    var out := new Output();
    error := out.Write(f, 0);
    text := out.text;
    PrintsWhen(f, 0);
    ErrorsMean(f, 0);
    if error == None {
      PrintSays(f);
    }
  }
}
