/** The key-state tracker: the module-level `keysPressed` record of
    utils/movement.js and the two event handlers that write it. The record has
    one "held" flag per tracked key name; an event whose key name is not one of
    them is ignored. */
module KeyState {
  import opened Wrappers

  /** The eight key names the record is created with: the four arrow keys and
      the lower-case letters w, a, s, d. */
  datatype Key = ArrowUp | ArrowDown | ArrowLeft | ArrowRight | LowerW | LowerA | LowerS | LowerD

  /** The event key name of a tracked key. */
  function Name(k: Key): string {
    match k
    case ArrowUp => "ArrowUp"
    case ArrowDown => "ArrowDown"
    case ArrowLeft => "ArrowLeft"
    case ArrowRight => "ArrowRight"
    case LowerW => "w"
    case LowerA => "a"
    case LowerS => "s"
    case LowerD => "d"
  }

  /** The record's lookup `key in keysPressed`: the tracked key an event's key
      name denotes, if any. */
  function Lookup(name: string): (r: Option<Key>)
    ensures r.Some? ==> Name(r.value) == name
  {
    if name == "ArrowUp" then Some(ArrowUp)
    else if name == "ArrowDown" then Some(ArrowDown)
    else if name == "ArrowLeft" then Some(ArrowLeft)
    else if name == "ArrowRight" then Some(ArrowRight)
    else if name == "w" then Some(LowerW)
    else if name == "a" then Some(LowerA)
    else if name == "s" then Some(LowerS)
    else if name == "d" then Some(LowerD)
    else None
  }

  /** Every tracked key is found under its own name. */
  lemma LookupName(k: Key)
    ensures Lookup(Name(k)) == Some(k)
  {
  }

  /** Only the eight names are tracked: a name is found exactly when it is the
      name of some tracked key, and then it is that key's name. */
  lemma LookupFindsOnlyNames(name: string)
    ensures Lookup(name).Some? <==> exists k :: Name(k) == name
  {
    if exists k :: Name(k) == name {
      var k :| Name(k) == name;
      LookupName(k);
    }
  }

  /** Letter keys are matched in lower case only: the upper-case letters that
      Shift produces are not tracked. */
  lemma UpperCaseLettersUntracked()
    ensures Lookup("W") == None && Lookup("A") == None
    ensures Lookup("S") == None && Lookup("D") == None
  {
  }

  /** The shape every record keeps: each tracked key has a flag. */
  predicate WellFormed(flags: map<Key, bool>) {
    forall k: Key :: k in flags
  }

  /** A map that has a flag for each of the eight keys, named one by one, is well formed. */
  lemma EveryKeyIsListed(flags: map<Key, bool>)
    requires ArrowUp in flags && ArrowDown in flags && ArrowLeft in flags && ArrowRight in flags
    requires LowerW in flags && LowerA in flags && LowerS in flags && LowerD in flags
    ensures WellFormed(flags)
  {
    forall k: Key ensures k in flags {
      match k
      case ArrowUp => case ArrowDown => case ArrowLeft => case ArrowRight =>
      case LowerW => case LowerA => case LowerS => case LowerD =>
    }
  }

  /** The record as the module creates it: every flag false. */
  function InitialFlags(): (flags: map<Key, bool>)
    ensures WellFormed(flags)
    ensures forall k :: k in flags ==> !flags[k]
  {
    var flags := map[ArrowUp := false, ArrowDown := false, ArrowLeft := false, ArrowRight := false,
                     LowerW := false, LowerA := false, LowerS := false, LowerD := false];
    EveryKeyIsListed(flags);
    flags
  }

  /** The effect of one event on the record: the key the name denotes, if
      any, gets `held`; no other flag changes, and an untracked name changes
      nothing. */
  function SetFlag(flags: map<Key, bool>, name: string, held: bool): (r: map<Key, bool>)
    requires WellFormed(flags)
    ensures WellFormed(r)
    ensures Lookup(name).Some? ==> r[Lookup(name).value] == held
    ensures forall k :: Lookup(name) != Some(k) ==> r[k] == flags[k]
  {
    match Lookup(name)
    case Some(k) => flags[k := held]
    case None => flags
  }

  /** The record itself, updated in place by the key-down and key-up handlers. */
  class InputState {
    var pressed: map<Key, bool>

    ghost predicate Valid()
      reads this
    {
      WellFormed(pressed)
    }

    /** The flag of a tracked key (`keysPressed.ArrowLeft`, ...). */
    function Held(k: Key): bool
      reads this
      requires Valid()
    {
      pressed[k]
    }

    constructor ()
      ensures Valid()
      ensures pressed == InitialFlags()
    {
      pressed := InitialFlags();
    }

    /** moveUser: the key-down handler. */
    method MoveUser(name: string)
      requires Valid()
      modifies this
      ensures Valid()
      ensures pressed == SetFlag(old(pressed), name, true)
    {
      var key := Lookup(name);
      if key.Some? {
        pressed := pressed[key.value := true];
      }
    }

    /** stopUser: the key-up handler. */
    method StopUser(name: string)
      requires Valid()
      modifies this
      ensures Valid()
      ensures pressed == SetFlag(old(pressed), name, false)
    {
      var key := Lookup(name);
      if key.Some? {
        pressed := pressed[key.value := false];
      }
    }
  }

  /** An untracked key name, the upper-case letters included, changes nothing. */
  lemma UntrackedKeyIgnored(flags: map<Key, bool>, name: string, held: bool)
    requires WellFormed(flags) && Lookup(name).None?
    ensures SetFlag(flags, name, held) == flags
  {
  }

  /** A tracked key name sets exactly its own flag. */
  lemma TrackedKeySetsOnlyItsFlag(flags: map<Key, bool>, k: Key, held: bool)
    requires WellFormed(flags)
    ensures SetFlag(flags, Name(k), held) == flags[k := held]
  {
    LookupName(k);
  }

  /** Pressing then releasing a key leaves it released, whatever it was
      before, and every other flag as it was. */
  lemma PressThenRelease(flags: map<Key, bool>, name: string)
    requires WellFormed(flags)
    ensures SetFlag(SetFlag(flags, name, true), name, false) == SetFlag(flags, name, false)
  {
  }

  /** Two events for the same key name: only the later one matters. In
      particular repeating an event has no further effect. */
  lemma LastEventWins(flags: map<Key, bool>, name: string, first: bool, second: bool)
    requires WellFormed(flags)
    ensures SetFlag(SetFlag(flags, name, first), name, second) == SetFlag(flags, name, second)
    ensures SetFlag(SetFlag(flags, name, second), name, second) == SetFlag(flags, name, second)
  {
  }
}
