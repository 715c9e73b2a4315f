// code_gen/asmsymbol/asmsymbols.go: the back end's symbol table, where a
// function records whether it is defined and its stack frame size and an
// object records its assembly type.
module AsmSymbols {
  import opened Wrappers
  import opened AsmAst

  datatype Entry = Fun(isDefined: bool, bytesRequired: int) | Obj(typ: AsmType, isStatic: bool)

  /** The byte size (and alignment) of an object's assembly type;
      `None` for a type the switches of asmsymbols.go:88-97 do not list. */
  function TypeSize(t: AsmType): Option<nat>
  {
    match t
    case LongWord => Some(4)
    case QuadWord => Some(8)
    case StringType => Some(8)
    case NoType => None
  }

  /** One character as `%q` writes it inside the quotes: a quote or a
      backslash is escaped with a backslash, any other character is kept. */
  function EscapeChar(c: char): string
  {
    if c == '"' || c == '\\' then ['\\', c] else [c]
  }

  function Escape(s: string): string
  {
    if s == [] then "" else EscapeChar(s[0]) + Escape(s[1..])
  }

  /** `%q` of a name: the name between double quotes, escaped. */
  function Quote(s: string): (q: string)
    ensures |q| >= 2 && q[0] == '"' && q[|q| - 1] == '"'
  {
    "\"" + Escape(s) + "\""
  }

  /** The first escaped character is told by its first one or two
      characters, so it and what follows it are determined. */
  lemma EscapeHead(c: char, d: char, x: string, y: string)
    requires EscapeChar(c) + x == EscapeChar(d) + y
    ensures c == d && x == y
  {
    var l := EscapeChar(c) + x;
    assert l[0] == EscapeChar(c)[0] == EscapeChar(d)[0];
    if c == '"' || c == '\\' {
      assert l[1] == c;
      assert l[1] == EscapeChar(d)[1];
    }
    assert c == d;
    assert x == l[|EscapeChar(c)|..];
  }

  /** The escaped text determines the name, so a message names its symbol
      unambiguously. */
  lemma {:induction false} EscapeInjective(a: string, b: string)
    requires Escape(a) == Escape(b)
    ensures a == b
    decreases |a|
  {
    if a != [] && b != [] {
      assert Escape(a) == EscapeChar(a[0]) + Escape(a[1..]);
      assert Escape(b) == EscapeChar(b[0]) + Escape(b[1..]);
      EscapeHead(a[0], b[0], Escape(a[1..]), Escape(b[1..]));
      EscapeInjective(a[1..], b[1..]);
      assert a == [a[0]] + a[1..] && b == [b[0]] + b[1..];
    } else {
      EscapeEmpty(a);
      EscapeEmpty(b);
    }
  }

  lemma EscapeEmpty(s: string)
    ensures Escape(s) == [] <==> s == []
  {
    if s != [] {
      assert Escape(s) == EscapeChar(s[0]) + Escape(s[1..]);
    }
  }

  lemma QuoteInjective(a: string, b: string)
    ensures Quote(a) == Quote(b) <==> a == b
  {
    if Quote(a) == Quote(b) {
      assert Escape(a) == Quote(a)[1..|Quote(a)| - 1];
      assert Escape(b) == Quote(b)[1..|Quote(b)| - 1];
      EscapeInjective(a, b);
    }
  }

  /** How GetSize and GetAlignment fail: no entry, an entry for a
      function, or an object of a type the switch does not list. */
  datatype ObjectFailure = SymbolNotFound | NotAnObject | UnknownType

  /** The message of asmsymbols.go:82, 86 and 96 (and 103, 107, 117). */
  function ObjectMessage(k: ObjectFailure, name: string): string
  {
    ObjectLead(k) + Quote(name) + ObjectTail(k)
  }

  function ObjectLead(k: ObjectFailure): string
  {
    match k
    case SymbolNotFound => "internal error: symbol "
    case NotAnObject => "internal error: "
    case UnknownType => "internal error: unknown asm type for "
  }

  function ObjectTail(k: ObjectFailure): string
  {
    match k
    case SymbolNotFound => " not found"
    case NotAnObject => " is a function, not an object"
    case UnknownType => ""
  }

  /** The character right after `internal error: ` tells the three
      messages apart: `s`, the opening quote, `u`. */
  lemma ObjectMessageKind(k: ObjectFailure, name: string)
    ensures |ObjectMessage(k, name)| > 16
    ensures ObjectMessage(k, name)[16] == (match k case SymbolNotFound => 's' case NotAnObject => '"' case UnknownType => 'u')
  {
    var q := Quote(name);
    assert ObjectMessage(k, name) == ObjectLead(k) + (q + ObjectTail(k));
    if k == NotAnObject {
      assert (ObjectLead(k) + (q + ObjectTail(k)))[16] == q[0];
    } else {
      assert (ObjectLead(k) + (q + ObjectTail(k)))[16] == ObjectLead(k)[16];
    }
  }

  /** A message determines both how the lookup failed and the name. */
  lemma ObjectMessageInjective(k1: ObjectFailure, n1: string, k2: ObjectFailure, n2: string)
    ensures ObjectMessage(k1, n1) == ObjectMessage(k2, n2) <==> k1 == k2 && n1 == n2
  {
    if ObjectMessage(k1, n1) == ObjectMessage(k2, n2) {
      ObjectMessageKind(k1, n1);
      ObjectMessageKind(k2, n2);
      assert k1 == k2;
      Unframe(ObjectLead(k1), Quote(n1), Quote(n2), ObjectTail(k1));
      QuoteInjective(n1, n2);
    }
  }

  /** A text framed by the same prefix and suffix determines its middle. */
  lemma Unframe(p: string, x: string, y: string, q: string)
    requires p + x + q == p + y + q
    ensures x == y
  {
    assert x == (p + x + q)[|p|..|p| + |x|];
    assert |x| == |y|;
    assert y == (p + y + q)[|p|..|p| + |y|];
  }

  class SymbolTable {
    var entries: map<string, Entry>

    /** NewAsmSymbolTable (asmsymbols.go:35-37). */
    constructor ()
      ensures entries == map[]
    {
      entries := map[];
    }

    /** AddFun (asmsymbols.go:39-44): a function entry with no bytes yet. */
    method AddFun(name: string, defined: bool)
      modifies this
      ensures entries == old(entries)[name := Fun(defined, 0)]
    {
      entries := entries[name := Fun(defined, 0)];
    }

    /** AddVar (asmsymbols.go:46-51). */
    method AddVar(name: string, t: AsmType, isStatic: bool)
      modifies this
      ensures entries == old(entries)[name := Obj(t, isStatic)]
    {
      entries := entries[name := Obj(t, isStatic)];
    }

    /** SetBytesRequired (asmsymbols.go:53-65): marks a function defined and
        records its frame size; any other name is an error naming it and
        changes nothing. */
    method SetBytesRequired(name: string, bytes: int) returns (r: Result<()>)
      modifies this
      ensures (name in old(entries) && old(entries[name]).Fun?) ==>
        (r == Ok(()) && entries == old(entries)[name := Fun(true, bytes)])
      ensures name !in old(entries) ==>
        r == Err("internal error: function " + Quote(name) + " is not defined") && entries == old(entries)
      ensures name in old(entries) && old(entries[name]).Obj? ==>
        r == Err("internal error: " + Quote(name) + " is not a function") && entries == old(entries)
    {
      if name !in entries {
        return Err("internal error: function " + Quote(name) + " is not defined");
      }
      if !entries[name].Fun? {
        return Err("internal error: " + Quote(name) + " is not a function");
      }
      entries := entries[name := Fun(true, bytes)];
      return Ok(());
    }

    /** GetBytesRequired (asmsymbols.go:67-77). */
    function GetBytesRequired(name: string): (r: Result<int>)
      reads this
      ensures r.Ok? <==> name in entries && entries[name].Fun?
      ensures r.Ok? ==> r.value == entries[name].bytesRequired
      ensures name !in entries ==> r == Err("internal error: function " + Quote(name) + " not found")
      ensures name in entries && entries[name].Obj? ==> r == Err("internal error: " + Quote(name) + " is not a function")
    {
      if name !in entries then Err("internal error: function " + Quote(name) + " not found")
      else if !entries[name].Fun? then Err("internal error: " + Quote(name) + " is not a function")
      else Ok(entries[name].bytesRequired)
    }

    /** GetSize (asmsymbols.go:79-98). */
    function GetSize(name: string): (r: Result<nat>)
      reads this
      ensures r.Ok? <==> name in entries && entries[name].Obj? && TypeSize(entries[name].typ).Some?
      ensures r.Ok? ==> r.value == TypeSize(entries[name].typ).value && r.value in {4, 8}
      ensures !r.Ok? ==> r == Err(ObjectMessage(FailureOf(name), name))
    {
      if name !in entries then Err("internal error: symbol " + Quote(name) + " not found")
      else if !entries[name].Obj? then Err("internal error: " + Quote(name) + " is a function, not an object")
      else
        match entries[name].typ
        case LongWord => Ok(4)
        case QuadWord => Ok(8)
        case StringType => Ok(8)
        case NoType => Err("internal error: unknown asm type for " + Quote(name))
    }

    /** How looking up `name` as an object fails, when it does. */
    function FailureOf(name: string): ObjectFailure
      reads this
    {
      if name !in entries then SymbolNotFound
      else if !entries[name].Obj? then NotAnObject
      else UnknownType
    }

    /** GetAlignment (asmsymbols.go:100-119): written out separately in the
        source, with the same cases as `GetSize`. */
    function GetAlignment(name: string): (r: Result<nat>)
      reads this
      ensures r.Ok? <==> name in entries && entries[name].Obj? && TypeSize(entries[name].typ).Some?
      ensures r.Ok? ==> r.value == TypeSize(entries[name].typ).value
      ensures !r.Ok? ==> r == Err(ObjectMessage(FailureOf(name), name))
    {
      if name !in entries then Err("internal error: symbol " + Quote(name) + " not found")
      else if !entries[name].Obj? then Err("internal error: " + Quote(name) + " is a function, not an object")
      else
        match entries[name].typ
        case LongWord => Ok(4)
        case QuadWord => Ok(8)
        case StringType => Ok(8)
        case NoType => Err("internal error: unknown asm type for " + Quote(name))
    }

    /** IsDefined (asmsymbols.go:121-131). */
    function IsDefined(name: string): (r: Result<bool>)
      reads this
      ensures r.Ok? <==> name in entries && entries[name].Fun?
      ensures r.Ok? ==> r.value == entries[name].isDefined
      ensures name !in entries ==> r == Err("internal error: symbol " + Quote(name) + " not found")
      ensures name in entries && entries[name].Obj? ==> r == Err("internal error: " + Quote(name) + " is not a function")
    {
      if name !in entries then Err("internal error: symbol " + Quote(name) + " not found")
      else if !entries[name].Fun? then Err("internal error: " + Quote(name) + " is not a function")
      else Ok(entries[name].isDefined)
    }

    /** Alignment agrees with size for every name, errors included. */
    lemma AlignmentIsSize(name: string)
      ensures GetAlignment(name) == GetSize(name)
    {
    }

    /** A failed lookup's message names the symbol: two names that both
        fail give the same message only when they are the same name. */
    lemma MessagesNameTheSymbol(a: string, b: string)
      requires !GetSize(a).Ok? && !GetSize(b).Ok?
      ensures GetSize(a) == GetSize(b) <==> a == b
    {
      ObjectMessageInjective(FailureOf(a), a, FailureOf(b), b);
    }
  }

  /** After `SetBytesRequired` succeeds on a function, it reads back as
      defined with the recorded byte count. */
  method SetThenGet(name: string, defined: bool, bytes: int) returns (stored: Result<int>, isDef: Result<bool>)
    ensures stored == Ok(bytes) && isDef == Ok(true)
  {
    var t := new SymbolTable();
    t.AddFun(name, defined);
    var _ := t.SetBytesRequired(name, bytes);
    stored := t.GetBytesRequired(name);
    isDef := t.IsDefined(name);
  }
}
