// symbols/symbols.go: the front end's symbol table, shared by the type
// checker, the TACKY generator and the back end. Entries are held by
// pointer in the source; the model holds them by value in the map, which
// is the same as long as no two names share one entry (the source never
// makes them share).
module Symbols {
  import opened Wrappers
  import opened MTypes

  /** An entry; `typ` is `None` for a variable declared without a type. */
  datatype Entry = Entry(typ: Option<Type>, isDefined: bool, stackFrameSize: int)

  class SymbolTable {
    var entries: map<string, Entry>

    /** NewSymbolTable (symbols.go:15-17). */
    constructor ()
      ensures entries == map[]
    {
      entries := map[];
    }

    /** Modify (symbols.go:19-21): replaces one entry. */
    method Modify(name: string, entry: Entry)
      modifies this
      ensures entries == old(entries)[name := entry]
    {
      entries := entries[name := entry];
    }

    /** AddFn (symbols.go:23-31): a function entry with the given defined
        flag and a zero frame size, overwriting any earlier entry. */
    method AddFn(t: Type, name: string, isDefined: bool) returns (entry: Entry)
      requires t.FnType?
      modifies this
      ensures entry == Entry(Some(t), isDefined, 0)
      ensures entries == old(entries)[name := entry]
    {
      entry := Entry(Some(t), isDefined, 0);
      entries := entries[name := entry];
    }

    /** AddVar (symbols.go:33-41): a variable entry is never defined and has
        a zero frame size. */
    method AddVar(t: Option<Type>, name: string) returns (entry: Entry)
      modifies this
      ensures entry == Entry(t, false, 0)
      ensures entries == old(entries)[name := entry]
    {
      entry := Entry(t, false, 0);
      entries := entries[name := entry];
    }

    /** Get (symbols.go:43-49): `None` stands for the nil pointer. */
    function Get(name: string): (r: Option<Entry>)
      reads this
      ensures r.Some? <==> name in entries
      ensures r.Some? ==> r.value == entries[name]
    {
      if name in entries then Some(entries[name]) else None
    }

    /** GetOptional (symbols.go:51-57) has the same body as Get. */
    function GetOptional(name: string): (r: Option<Entry>)
      reads this
      ensures r == Get(name)
    {
      if name in entries then Some(entries[name]) else None
    }

    /** IsDefined (symbols.go:59-62). */
    function IsDefined(name: string): (b: bool)
      reads this
      ensures b <==> Get(name).Some? && Get(name).value.isDefined
    {
      name in entries && entries[name].isDefined
    }

    /** SetBytesRequired (symbols.go:64-67): sets only that entry's frame
        size; for an absent name the source dereferences nil. */
    method SetBytesRequired(name: string, bytes: int) returns (r: Result<()>)
      modifies this
      ensures name in old(entries) ==>
        (r == Ok(()) && entries == old(entries)[name := old(entries[name]).(stackFrameSize := bytes)])
      ensures name !in old(entries) ==> r.Panic? && entries == old(entries)
    {
      if name !in entries {
        return Panic("nil pointer dereference");
      }
      entries := entries[name := entries[name].(stackFrameSize := bytes)];
      return Ok(());
    }
  }
}
