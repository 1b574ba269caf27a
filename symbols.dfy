/**
 * The `actual_*` function pointers. Each starts NULL and is looked up with
 * `dlsym(RTLD_NEXT, name)` only while it is still NULL; a pointer once set
 * is kept. The dynamic linker is an input: the address it gives for each
 * name, NULL for a name it does not know.
 */
module Symbols {
  import opened CStrings

  /** A code address; 0 is NULL. */
  type Addr = nat

  const NULL: Addr := 0

  /** What `dlsym(RTLD_NEXT, name)` returns. */
  function Next(linker: map<Str, Addr>, name: Str): Addr {
    if name in linker then linker[name] else NULL
  }

  /** The process's pointers by function name; a name not in the map is still NULL. */
  type Slots = map<Str, Addr>

  function Slot(slots: Slots, name: Str): Addr {
    if name in slots then slots[name] else NULL
  }

  /** `if (actual_x == NULL) actual_x = dlsym(RTLD_NEXT, "x");` */
  function Resolve(slots: Slots, linker: map<Str, Addr>, name: Str): (r: Slots)
    ensures Slot(r, name) == if Slot(slots, name) != NULL then Slot(slots, name) else Next(linker, name)
    ensures forall n :: n != name ==> Slot(r, n) == Slot(slots, n)
  {
    if Slot(slots, name) != NULL then slots else slots[name := Next(linker, name)]
  }

  /** The lookups in order, as the load-time constructor does them. */
  function ResolveAll(slots: Slots, linker: map<Str, Addr>, names: seq<Str>): Slots
    decreases |names|
  {
    if names == [] then slots
    else ResolveAll(Resolve(slots, linker, names[0]), linker, names[1..])
  }

  /** A pointer that is set is never looked up again, whatever the linker would now answer. */
  lemma SetIsKept(slots: Slots, linker: map<Str, Addr>, name: Str)
    requires Slot(slots, name) != NULL
    ensures Resolve(slots, linker, name) == slots
  {
  }

  /** A second lookup changes nothing, even when the first one found nothing. */
  lemma ResolveIdempotent(slots: Slots, linker: map<Str, Addr>, name: Str)
    ensures Resolve(Resolve(slots, linker, name), linker, name) == Resolve(slots, linker, name)
  {
  }

  /** Whatever later linkers answer, the first non-NULL answer stays. */
  lemma FirstAnswerStays(slots: Slots, first: map<Str, Addr>, later: map<Str, Addr>, name: Str)
    requires Next(first, name) != NULL
    ensures Slot(Resolve(Resolve(slots, first, name), later, name), name) == Slot(Resolve(slots, first, name), name)
    ensures Slot(Resolve(slots, first, name), name) != NULL
  {
  }

  /** After the constructor, each listed pointer is its old value if set, else the linker's answer; others are unchanged. */
  lemma {:induction false} ResolveAllSlot(slots: Slots, linker: map<Str, Addr>, names: seq<Str>, n: Str)
    ensures Slot(ResolveAll(slots, linker, names), n) ==
      if n in names && Slot(slots, n) == NULL then Next(linker, n) else Slot(slots, n)
    decreases |names|
  {
    if names != [] {
      var s1 := Resolve(slots, linker, names[0]);
      ResolveAllSlot(s1, linker, names[1..], n);
      assert n in names <==> n == names[0] || n in names[1..];
    }
  }

  /** Looking up one more name after a prefix of the list. */
  lemma {:induction false} ResolveAllSnoc(slots: Slots, linker: map<Str, Addr>, names: seq<Str>, k: nat)
    requires k < |names|
    ensures ResolveAll(slots, linker, names[..k + 1]) == Resolve(ResolveAll(slots, linker, names[..k]), linker, names[k])
    decreases k
  {
    if k > 0 {
      var s1 := Resolve(slots, linker, names[0]);
      assert names[..k + 1][1..] == names[1..][..k];
      assert names[..k][1..] == names[1..][..k - 1];
      ResolveAllSnoc(s1, linker, names[1..], k - 1);
    } else {
      assert names[..1][1..] == [];
    }
  }

  lemma ResolveAllWhole(slots: Slots, linker: map<Str, Addr>, names: seq<Str>)
    ensures ResolveAll(slots, linker, names[..|names|]) == ResolveAll(slots, linker, names)
  {
    assert names[..|names|] == names;
  }
}
