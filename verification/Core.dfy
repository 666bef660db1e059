/**
  Values shared by every stage of the pipeline: risk tiers, candidate actions,
  tools, hats and the results of the evaluation panel.
  */
module Core {
  import opened Strings

  datatype Option<+T> = None | Some(value: T) {
    function GetOr(default: T): T {
      match this
      case None => default
      case Some(v) => v
    }
  }

  /** The four autonomy levels, from the least to the most cautious. */
  datatype Tier = Green | Yellow | Orange | Red {
    function Rank(): nat {
      match this
      case Green => 0
      case Yellow => 1
      case Orange => 2
      case Red => 3
    }
  }

  function Higher(a: Tier, b: Tier): Tier {
    if a.Rank() >= b.Rank() then a else b
  }

  /** An optional floor lets every tier through when it is absent. */
  predicate AtLeast(tier: Tier, floor: Option<Tier>) {
    floor.None? || tier.Rank() >= floor.value.Rank()
  }

  /** The tier raised to an optional floor. */
  function Raise(tier: Tier, floor: Option<Tier>): Tier {
    match floor
    case None => tier
    case Some(f) => Higher(tier, f)
  }

  /** A JSON value. */
  datatype Value =
    | Null
    | Text(text: string)
    | Integer(i: int)
    | Number(r: real)
    | Boolean(b: bool)
    | Array(items: seq<Value>)
    | Object(fields: seq<(string, Value)>)

  /** The values that the code can iterate over and test for membership. */
  predicate Iterable(v: Value) {
    v.Array? || v.Text? || v.Object?
  }

  /** A list of names, as a model should give it, or a text or an object in its place. */
  type Container = v: Value | Iterable(v) witness Array([])

  const NOTHING: Container := Array([])

  /** Membership: of an element of a list, a part of a text, or a key of an object. */
  predicate Has(c: Container, name: string) {
    match c
    case Array(items) => Text(name) in items
    case Text(text) => Contains(text, name)
    case Object(fields) => Text(name) in Keys(fields)
  }

  /** What iterating over a container gives: the elements, the characters, or the keys. */
  function Iterated(c: Container): seq<Value> {
    match c
    case Array(items) => items
    case Text(text) => seq(|text|, i requires 0 <= i < |text| => Text([text[i]]))
    case Object(fields) => Keys(fields)
  }

  function Keys(fields: seq<(string, Value)>): (r: seq<Value>)
    ensures |r| == |fields|
  {
    seq(|fields|, i requires 0 <= i < |fields| => Text(fields[i].0))
  }

  /** Membership and iteration agree, except that a text has all its parts but iterates over its characters. */
  lemma HasMeaning(c: Container, name: string)
    ensures Text(name) in Iterated(c) <==> if c.Text? then |name| == 1 && name[0] in c.text else Has(c, name)
  {
    if c.Text? && |name| == 1 && name[0] in c.text {
      var i :| 0 <= i < |c.text| && c.text[i] == name[0];
      assert Iterated(c)[i] == Text(name);
    }
  }

  /** Numbers in JSON; the two truth values count as 1 and 0. */
  function AsNumber(v: Value): Option<real> {
    match v
    case Integer(i) => Some(i as real)
    case Number(r) => Some(r)
    case Boolean(b) => Some(if b then 1.0 else 0.0)
    case _ => None
  }

  predicate DistinctNames(items: seq<(string, Value)>) {
    forall i, j :: 0 <= i < j < |items| ==> items[i].0 != items[j].0
  }

  /** A dictionary as its items in insertion order. */
  type Dict = items: seq<(string, Value)> | DistinctNames(items) witness []

  function Lookup(items: seq<(string, Value)>, name: string): Option<Value> {
    if items == [] then None
    else if items[0].0 == name then Some(items[0].1)
    else Lookup(items[1..], name)
  }

  lemma {:induction false} LookupMeaning(items: seq<(string, Value)>, name: string, value: Value)
    requires DistinctNames(items)
    ensures Lookup(items, name) == Some(value) <==> (name, value) in items
  {
    if items != [] {
      assert DistinctNames(items[1..]);
      LookupMeaning(items[1..], name, value);
      assert (name, value) in items <==> items[0] == (name, value) || (name, value) in items[1..];
    }
  }

  /** One action proposed by the language model. */
  datatype Candidate = Candidate(toolName: string, parameters: Dict)

  /** What the pipeline reads of a registered tool. */
  datatype Tool = Tool(required: seq<string>, riskFloor: Option<Tier>, cacheTtl: Option<int>)

  type Tools = map<string, Tool>

  function FindTool(tools: Tools, name: string): Option<Tool> {
    if name in tools then Some(tools[name]) else None
  }

  /** The deterministic part of an equipped hat. */
  datatype HatConfig = HatConfig(
    weightOverrides: map<string, real>,
    evaluatorThresholds: map<string, real>,
    minTier: Option<Tier>,
    manifestWeights: map<string, real>,
    manifestThresholds: map<string, real>,
    placeholderPatterns: set<string>,
    triggers: seq<string>,
    triggerSeverity: map<string, Tier>)

  datatype EvaluatorResult = EvaluatorResult(
    evaluatorName: string,
    score: real,
    confidence: real,
    flags: Container)

  const CONVERSE := "converse"
  const ESCALATE := "escalate_to_human"
  const CATASTROPHIC := "catastrophic_harm"
  const VETO := Text(CATASTROPHIC)

  function Clamp(value: real, lo: real, hi: real): (r: real)
    requires lo <= hi
    ensures lo <= r <= hi
    ensures lo <= value <= hi ==> r == value
    ensures value < lo ==> r == lo
    ensures value > hi ==> r == hi
  {
    var capped := if value <= hi then value else hi;
    if capped >= lo then capped else lo
  }

  /** The value lies between lo and hi times the mass. */
  predicate Between(lo: real, value: real, hi: real, mass: real) {
    lo * mass <= value <= hi * mass
  }

  lemma BetweenSum(lo: real, x: real, y: real, hi: real, a: real, b: real)
    requires Between(lo, x, hi, a) && Between(lo, y, hi, b)
    ensures Between(lo, x + y, hi, a + b)
  {
    assert lo * (a + b) == lo * a + lo * b && hi * (a + b) == hi * a + hi * b;
  }

  lemma Scale(x: real, y: real, p: real)
    requires x <= y && p >= 0.0
    ensures x * p <= y * p
  {
    assert (y - x) * p >= 0.0;
  }

  /*** Runs, as sequences that grow at the end ***/

  function Init<T>(run: seq<T>): seq<T>
    requires run != []
  {
    run[..|run| - 1]
  }

  function Last<T>(run: seq<T>): T
    requires run != []
  {
    run[|run| - 1]
  }

  /*** Rearrangements ***/

  /** A sequence with its i-th element taken out. */
  function Without<T>(s: seq<T>, i: nat): seq<T>
    requires i < |s|
  {
    s[..i] + s[i + 1..]
  }

  lemma Associative<T>(a: seq<T>, b: seq<T>, c: seq<T>)
    ensures (a + b) + c == a + (b + c)
  {
  }

  lemma WithoutMultiset<T>(s: seq<T>, i: nat)
    requires i < |s|
    ensures multiset(s) == multiset(Without(s, i)) + multiset{s[i]}
  {
    assert s == s[..i] + [s[i]] + s[i + 1..];
  }

  /** Two arrangements of the same elements: the head of one is somewhere in the other. */
  lemma FindHead<T>(s: seq<T>, t: seq<T>) returns (i: nat)
    requires s != [] && multiset(s) == multiset(t)
    ensures i < |t| && t[i] == s[0]
    ensures multiset(s[1..]) == multiset(Without(t, i))
  {
    assert s[0] in multiset(t);
    i :| 0 <= i < |t| && t[i] == s[0];
    WithoutMultiset(t, i);
    WithoutMultiset(s, 0);
    assert Without(s, 0) == s[1..];
    assert multiset(s[1..]) == multiset(s) - multiset{s[0]};
    assert multiset(Without(t, i)) == multiset(t) - multiset{t[i]};
  }
}
