/**
 * The interning symbols table: a list of (id, name) entries, appended at the
 * tail, searched from the head. Looking a name up returns the id it was given
 * the first time it was seen; a name not seen before gets the next id.
 */
module SymbolsTable {

  datatype Symbol = Symbol(id: nat, name: string)

  /** The table's contents: its entries in list order and its id counter. */
  datatype State = State(entries: seq<Symbol>, idCounter: nat)

  const Empty := State([], 0)

  /** The names of the entries, in list order. */
  function NamesOf(entries: seq<Symbol>): seq<string>
  {
    seq(|entries|, i requires 0 <= i < |entries| => entries[i].name)
  }

  predicate Contains(entries: seq<Symbol>, name: string)
  {
    exists i :: 0 <= i < |entries| && entries[i].name == name
  }

  /**
   * What the table keeps: the ids are 1, 2, ..., n in list order, the counter
   * is n, and no name is stored twice.
   */
  predicate ValidState(s: State)
  {
    && s.idCounter == |s.entries|
    && (forall i :: 0 <= i < |s.entries| ==> s.entries[i].id == i + 1)
    && (forall i, j :: 0 <= i < j < |s.entries| ==> s.entries[i].name != s.entries[j].name)
  }

  /** `ST_findByName` on a list: the id of the first entry named `name`, or 0. */
  function Lookup(entries: seq<Symbol>, name: string): nat
  {
    if |entries| == 0 then 0
    else if entries[0].name == name then entries[0].id
    else Lookup(entries[1..], name)
  }

  lemma {:induction false} LookupAt(entries: seq<Symbol>, name: string, i: nat)
    requires i < |entries| && entries[i].name == name
    requires forall j :: 0 <= j < i ==> entries[j].name != name
    ensures Lookup(entries, name) == entries[i].id
  {
    if i > 0 {
      LookupAt(entries[1..], name, i - 1);
    }
  }

  lemma {:induction false} LookupMissing(entries: seq<Symbol>, name: string)
    requires !Contains(entries, name)
    ensures Lookup(entries, name) == 0
  {
    if |entries| > 0 {
      assert !Contains(entries[1..], name) by {
        forall i | 0 <= i < |entries| - 1 ensures entries[1..][i].name != name {
          assert entries[1..][i] == entries[i + 1];
        }
      }
      LookupMissing(entries[1..], name);
    }
  }

  /**
   * In a well-formed table the lookup answers 0 exactly for names that are
   * absent, and otherwise the id of the one entry with that name.
   */
  lemma LookupSpec(s: State, name: string)
    requires ValidState(s)
    ensures Lookup(s.entries, name) == 0 <==> !Contains(s.entries, name)
    ensures forall i :: 0 <= i < |s.entries| && s.entries[i].name == name ==>
              Lookup(s.entries, name) == i + 1
  {
    if Contains(s.entries, name) {
      var i :| 0 <= i < |s.entries| && s.entries[i].name == name;
      LookupAt(s.entries, name, i);
    } else {
      LookupMissing(s.entries, name);
    }
  }

  /**
   * `symbolsTable_getIdOrAddSymbol` on the table's contents: the contents
   * afterwards and the id returned.
   */
  function Intern(s: State, name: string): (State, nat)
  {
    var found := Lookup(s.entries, name);
    if found != 0 then (s, found)
    else (State(s.entries + [Symbol(s.idCounter + 1, name)], s.idCounter + 1), s.idCounter + 1)
  }

  /** A name already present: its stored id, and nothing changes. */
  lemma InternPresent(s: State, name: string, i: nat)
    requires ValidState(s) && i < |s.entries| && s.entries[i].name == name
    ensures Intern(s, name) == (s, i + 1)
  {
    LookupSpec(s, name);
  }

  /** A new name: one entry at the tail with the next id, which is returned. */
  lemma InternAbsent(s: State, name: string)
    requires ValidState(s) && !Contains(s.entries, name)
    ensures Intern(s, name).0.entries == s.entries + [Symbol(|s.entries| + 1, name)]
    ensures Intern(s, name).0.idCounter == s.idCounter + 1
    ensures Intern(s, name).1 == |s.entries| + 1
  {
    LookupSpec(s, name);
  }

  /** Interning keeps the table well formed, and the id returned names `name`. */
  lemma InternValid(s: State, name: string)
    requires ValidState(s)
    ensures ValidState(Intern(s, name).0)
    ensures var (s', id) := Intern(s, name);
            1 <= id <= |s'.entries| && s'.entries[id - 1].name == name
  {
    LookupSpec(s, name);
    if Contains(s.entries, name) {
      var i :| 0 <= i < |s.entries| && s.entries[i].name == name;
    }
  }

  /** Interning the same name a second time returns the same id and changes nothing. */
  lemma InternIdempotent(s: State, name: string)
    requires ValidState(s)
    ensures var (s', id) := Intern(s, name);
            Intern(s', name) == (s', id)
  {
    InternValid(s, name);
    var (s', id) := Intern(s, name);
    InternPresent(s', name, id - 1);
  }

  /** Two different names interned one after the other get different ids. */
  lemma InternDistinct(s: State, x: string, y: string)
    requires ValidState(s) && x != y
    ensures var (s1, a) := Intern(s, x);
            var (s2, b) := Intern(s1, y);
            a != b
  {
    InternValid(s, x);
    var (s1, a) := Intern(s, x);
    InternValid(s1, y);
    var (s2, b) := Intern(s1, y);
    LookupSpec(s1, y);
    if Contains(s1.entries, y) {
      var i :| 0 <= i < |s1.entries| && s1.entries[i].name == y;
      assert b == i + 1;
    }
  }

  /** The first name interned in a fresh table gets id 1. */
  lemma FirstIdIsOne(name: string)
    ensures Intern(Empty, name).1 == 1
  {
  }

  /** The distinct names of `names`, each kept where it first appears. */
  function FirstSeen(names: seq<string>): seq<string>
  {
    if |names| == 0 then []
    else
      var p := FirstSeen(names[..|names| - 1]);
      var x := names[|names| - 1];
      if x in p then p else p + [x]
  }

  /** Interning each of `names` in turn. */
  function InternAll(s: State, names: seq<string>): State
  {
    if |names| == 0 then s else Intern(InternAll(s, names[..|names| - 1]), names[|names| - 1]).0
  }

  /**
   * Ids are handed out in first-seen order: after interning `names` into a
   * fresh table, the entries are the distinct names in the order of their
   * first appearance, so the name at position k carries id k + 1.
   */
  lemma {:induction false} InternAllFirstSeen(names: seq<string>)
    ensures ValidState(InternAll(Empty, names))
    ensures NamesOf(InternAll(Empty, names).entries) == FirstSeen(names)
  {
    if |names| > 0 {
      var prefix := names[..|names| - 1];
      var x := names[|names| - 1];
      InternAllFirstSeen(prefix);
      var s := InternAll(Empty, prefix);
      InternValid(s, x);
      LookupSpec(s, x);
      assert x in FirstSeen(prefix) <==> Contains(s.entries, x) by {
        if x in FirstSeen(prefix) {
          var i :| 0 <= i < |FirstSeen(prefix)| && FirstSeen(prefix)[i] == x;
          assert NamesOf(s.entries)[i] == x;
        }
        if Contains(s.entries, x) {
          var i :| 0 <= i < |s.entries| && s.entries[i].name == x;
          assert FirstSeen(prefix)[i] == x;
        }
      }
    }
  }

  /** The symbols table of one lexing session. */
  class Table {
    var entries: seq<Symbol>
    var idCounter: nat

    ghost function Contents(): State
      reads this
    {
      State(entries, idCounter)
    }

    ghost predicate Valid()
      reads this
    {
      ValidState(Contents())
    }

    /** `symbolsTable_init`: no entries, counter 0. */
    constructor ()
      ensures Valid() && Contents() == Empty
    {
      entries := [];
      idCounter := 0;
    }

    /**
     * `ST_findByName`: walk the entries from the head and return the id of
     * the first one whose name equals `name`, or 0 when none does.
     */
    method FindByName(name: string) returns (id: nat)
      ensures id == Lookup(entries, name)
      ensures Valid() ==> (id == 0 <==> !Contains(entries, name))
      ensures Valid() ==> forall i :: 0 <= i < |entries| && entries[i].name == name ==> id == i + 1
    {
      var i := 0;
      while i < |entries|
        invariant 0 <= i <= |entries|
        invariant forall j :: 0 <= j < i ==> entries[j].name != name
      {
        if entries[i].name == name {
          LookupAt(entries, name, i);
          if Valid() {
            LookupSpec(Contents(), name);
          }
          return entries[i].id;
        }
        i := i + 1;
      }
      LookupMissing(entries, name);
      return 0;
    }

    /**
     * `ST_add`: increment the counter and append an entry holding a copy of
     * `name` and the new counter value at the tail; return that id.
     */
    method Add(name: string) returns (id: nat)
      modifies this
      ensures idCounter == old(idCounter) + 1 && id == idCounter
      ensures entries == old(entries) + [Symbol(id, name)]
    {
      idCounter := idCounter + 1;
      entries := entries + [Symbol(idCounter, name)];
      id := idCounter;
    }

    /**
     * `symbolsTable_getIdOrAddSymbol`: the stored id of `name` when it is
     * present, otherwise the id of a new entry for it.
     */
    method GetIdOrAddSymbol(name: string) returns (id: nat)
      requires Valid()
      modifies this
      ensures Valid()
      ensures (Contents(), id) == Intern(old(Contents()), name)
    {
      var found := FindByName(name);
      if found != 0 {
        id := found;
      } else {
        id := Add(name);
      }
      InternValid(old(Contents()), name);
    }
  }
}
