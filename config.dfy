/**
 * The settings of KeyBridge: the text macros (a dictionary from button
 * label to the text it types), the app shortcuts, the configuration file
 * they are saved to, and the table from PC keys to Android key codes.
 */
module Config {
  import opened Wrappers

  // ---------------------------------------------------------------------
  // Python dictionaries from strings to strings.

  /** One dictionary item. */
  datatype Entry = Entry(key: string, value: string)

  /** A dictionary as its items in insertion order, which is the order Python iterates them in. */
  type Dict = seq<Entry>

  /** Every key occurs once, as in any Python dictionary. */
  predicate UniqueKeys(d: Dict) {
    forall i, j :: 0 <= i < j < |d| ==> d[i].key != d[j].key
  }

  /** The position of the first item with key `k`, or `|d|` when there is none. */
  function IndexOf(d: Dict, k: string): (i: nat)
    ensures i <= |d|
    ensures i < |d| ==> d[i].key == k
    ensures forall j :: 0 <= j < i ==> d[j].key != k
    decreases |d|
  {
    if d == [] then 0
    else if d[0].key == k then 0
    else
      var i := IndexOf(d[1..], k);
      assert forall j :: 1 <= j < i + 1 ==> d[j] == d[1..][j - 1];
      i + 1
  }

  /** Python's `k in d`. */
  predicate HasKey(d: Dict, k: string) {
    IndexOf(d, k) < |d|
  }

  /** Python's `d.get(k)`. */
  function Get(d: Dict, k: string): Option<string> {
    if HasKey(d, k) then Some(d[IndexOf(d, k)].value) else None
  }

  /** Python's `d[k] = v`: overwrites in place when `k` is present, appends otherwise. */
  function Put(d: Dict, k: string, v: string): Dict {
    var i := IndexOf(d, k);
    if i < |d| then d[i := Entry(k, v)] else d + [Entry(k, v)]
  }

  /** Python's `del d[k]`, for a present key; an absent key leaves `d` as it is. */
  function Remove(d: Dict, k: string): Dict {
    var i := IndexOf(d, k);
    if i < |d| then d[..i] + d[i + 1..] else d
  }

  /** In a dictionary, the item at `i` is what its key looks up. */
  lemma {:induction false} GetAt(d: Dict, i: nat)
    requires UniqueKeys(d) && i < |d|
    ensures IndexOf(d, d[i].key) == i
    ensures Get(d, d[i].key) == Some(d[i].value)
  {
    assert forall j :: 0 <= j < i ==> d[j].key != d[i].key;
  }

  /** `d[k] = v` makes `k` look up `v` and leaves every other key as it was. */
  lemma {:induction false} PutGet(d: Dict, k: string, v: string)
    ensures Get(Put(d, k, v), k) == Some(v)
    ensures forall k' :: k' != k ==> Get(Put(d, k, v), k') == Get(d, k')
  {
    var r := Put(d, k, v);
    var i := IndexOf(d, k);
    assert forall j :: 0 <= j < |d| && j != i ==> r[j] == d[j];
    assert r[i] == Entry(k, v);
    assert forall j :: 0 <= j < i ==> r[j].key != k by {
      forall j | 0 <= j < i ensures r[j].key != k {
        assert r[j] == d[j];
      }
    }
    forall k' | k' != k
      ensures Get(r, k') == Get(d, k')
    {
      SameFirstIndex(d, r, i, k');
    }
  }

  /**
   * Two dictionaries that agree everywhere except at position `i`, where
   * neither holds key `k'`, find `k'` at the same place.
   */
  lemma {:induction false} SameFirstIndex(d: Dict, r: Dict, i: nat, k': string)
    requires |d| <= |r| <= |d| + 1 && i <= |d| && (|r| == |d| + 1 ==> i == |d|)
    requires forall j :: 0 <= j < |d| && j != i ==> r[j] == d[j]
    requires i < |d| ==> d[i].key != k'
    requires i < |r| ==> r[i].key != k'
    ensures Get(r, k') == Get(d, k')
  {
    var a, b := IndexOf(d, k'), IndexOf(r, k');
    if a < |d| {
      assert r[a] == d[a];
    }
    if b < |d| && b != i {
      assert r[b] == d[b];
    }
  }

  /** `d[k] = v` keeps the keys unique, keeps every item in its place, and grows `d` only for a new key. */
  lemma {:induction false} PutShape(d: Dict, k: string, v: string)
    requires UniqueKeys(d)
    ensures var r := Put(d, k, v);
      && UniqueKeys(r)
      && |r| == (if HasKey(d, k) then |d| else |d| + 1)
      && (forall j :: 0 <= j < |d| && d[j].key != k ==> r[j] == d[j])
      && r[IndexOf(d, k)] == Entry(k, v)
  {
  }

  /** `del d[k]` removes `k` and leaves every other key as it was. */
  lemma {:induction false} RemoveGet(d: Dict, k: string)
    requires UniqueKeys(d)
    ensures Get(Remove(d, k), k) == None
    ensures forall k' :: k' != k ==> Get(Remove(d, k), k') == Get(d, k')
    ensures UniqueKeys(Remove(d, k))
    ensures |Remove(d, k)| == (if HasKey(d, k) then |d| - 1 else |d|)
  {
    var i := IndexOf(d, k);
    if i < |d| {
      var r := Remove(d, k);
      assert forall j :: 0 <= j < i ==> r[j] == d[j];
      assert forall j :: i <= j < |r| ==> r[j] == d[j + 1];
      forall j | 0 <= j < |r|
        ensures r[j].key != k
      {
        if j >= i {
          assert r[j].key == d[j + 1].key && d[i].key == k;
        }
      }
      forall k' | k' != k
        ensures Get(r, k') == Get(d, k')
      {
        RemoveOther(d, r, i, k');
      }
    }
  }

  lemma {:induction false} RemoveOther(d: Dict, r: Dict, i: nat, k': string)
    requires i < |d| && |r| == |d| - 1 && d[i].key != k'
    requires forall j :: 0 <= j < i ==> r[j] == d[j]
    requires forall j :: i <= j < |r| ==> r[j] == d[j + 1]
    ensures Get(r, k') == Get(d, k')
  {
    var a, b := IndexOf(d, k'), IndexOf(r, k');
    if b < |r| {
      assert r[b] == d[if b < i then b else b + 1];
    }
    if a < |d| {
      assert r[if a < i then a else a - 1] == d[a];
    }
  }

  /**
   * The dictionary a JSON object decodes to, from its members in text
   * order: Python's `dict(pairs)`, where a repeated key keeps its first
   * place and takes its last value.
   */
  function FromPairs(pairs: seq<Entry>): (d: Dict)
    decreases |pairs|
  {
    if pairs == [] then []
    else
      var last := pairs[|pairs| - 1];
      Put(FromPairs(pairs[..|pairs| - 1]), last.key, last.value)
  }

  /** Decoding always yields a dictionary, and decodes a dictionary to itself. */
  lemma {:induction false} FromPairsFacts(pairs: seq<Entry>)
    ensures UniqueKeys(FromPairs(pairs))
    ensures UniqueKeys(pairs) ==> FromPairs(pairs) == pairs
    decreases |pairs|
  {
    if pairs != [] {
      var front := pairs[..|pairs| - 1];
      var last := pairs[|pairs| - 1];
      FromPairsFacts(front);
      PutShape(FromPairs(front), last.key, last.value);
      if UniqueKeys(pairs) {
        assert UniqueKeys(front);
        assert forall j :: 0 <= j < |front| ==> front[j].key != last.key by {
          forall j | 0 <= j < |front| ensures front[j].key != last.key {
            assert front[j] == pairs[j];
          }
        }
        assert front + [last] == pairs;
      }
    }
  }

  // ---------------------------------------------------------------------
  // The configuration file.

  /**
   * What `user_config.json` holds: no file; a file that cannot be opened
   * or is not a JSON object; or a JSON object, with or without a
   * `"macros"` member (given as its members in text order).
   */
  datatype ConfigFile = Absent | Unreadable | Stored(macros: Option<seq<Entry>>)

  /**
   * `load`: the stored macros replace the current ones wholesale; a file
   * without them, a missing file or one that fails to read or parse keeps
   * the current ones.
   */
  function Loaded(file: ConfigFile, current: Dict): (d: Dict)
    ensures UniqueKeys(current) ==> UniqueKeys(d)
    ensures file.Stored? && file.macros.Some? ==> d == FromPairs(file.macros.value)
    ensures !(file.Stored? && file.macros.Some?) ==> d == current
  {
    match file
    case Stored(Some(pairs)) =>
      FromPairsFacts(pairs);
      FromPairs(pairs)
    case _ => current
  }

  /** Loading what `save` wrote gives the saved macros back, whatever was loaded before. */
  lemma {:induction false} LoadAfterSave(macros: Dict, current: Dict)
    requires UniqueKeys(macros)
    ensures Loaded(Stored(Some(macros)), current) == macros
  {
    FromPairsFacts(macros);
  }

  // ---------------------------------------------------------------------
  // The defaults.

  const DefaultMacros: Dict := [Entry("My Email", "user@example.com"), Entry("Address", "123 Tech Street")]

  const AppShortcuts: Dict := [
    Entry("Chrome", "com.android.chrome"),
    Entry("YouTube", "com.google.android.youtube"),
    Entry("WhatsApp", "com.whatsapp"),
    Entry("Settings", "com.android.settings")
  ]

  lemma {:induction false} DefaultsAreDictionaries()
    ensures UniqueKeys(DefaultMacros) && UniqueKeys(AppShortcuts)
  {
    assert DefaultMacros[0].key[0] == 'M' && DefaultMacros[1].key[0] == 'A';
    assert AppShortcuts[0].key[0] == 'C' && AppShortcuts[1].key[0] == 'Y';
    assert AppShortcuts[2].key[0] == 'W' && AppShortcuts[3].key[0] == 'S';
  }

  // ---------------------------------------------------------------------
  // The manager.

  /**
   * `ConfigManager`: the macros and apps in memory, and `file`, the
   * configuration file as the manager last left it.
   */
  class ConfigManager {
    var macros: Dict
    var apps: Dict
    var file: ConfigFile

    ghost predicate Valid()
      reads this
    {
      UniqueKeys(macros) && UniqueKeys(apps)
    }

    /** `__init__`: copies of the defaults, then `load` from the file as found on disk. */
    constructor (disk: ConfigFile)
      ensures Valid()
      ensures macros == Loaded(disk, DefaultMacros) && apps == AppShortcuts && file == disk
    {
      DefaultsAreDictionaries();
      macros := DefaultMacros;
      apps := AppShortcuts;
      file := disk;
      new;
      Load();
    }

    /** `load`: replace-or-keep, as `Loaded` says; the apps are never loaded. */
    method Load()
      requires Valid()
      modifies this`macros
      ensures Valid()
      ensures macros == Loaded(file, old(macros))
    {
      match file
      case Stored(Some(pairs)) =>
        FromPairsFacts(pairs);
        macros := FromPairs(pairs);
      case _ =>
    }

    /** `save`: the file holds exactly `{"macros": macros}`. */
    method Save()
      modifies this`file
      ensures file == Stored(Some(macros))
    {
      file := Stored(Some(macros));
    }

    /** `add_macro`: sets `macros[name] = text`, overwriting an existing label, then saves. */
    method AddMacro(name: string, text: string)
      requires Valid()
      modifies this`macros, this`file
      ensures Valid()
      ensures macros == Put(old(macros), name, text)
      ensures file == Stored(Some(macros))
    {
      PutShape(macros, name, text);
      macros := Put(macros, name, text);
      Save();
    }

    /** `remove_macro`: deletes a present label and saves; an absent one changes nothing and saves nothing. */
    method RemoveMacro(name: string)
      requires Valid()
      modifies this`macros, this`file
      ensures Valid()
      ensures HasKey(old(macros), name) ==> macros == Remove(old(macros), name) && file == Stored(Some(macros))
      ensures !HasKey(old(macros), name) ==> macros == old(macros) && file == old(file)
    {
      if HasKey(macros, name) {
        RemoveGet(macros, name);
        macros := Remove(macros, name);
        Save();
      }
    }
  }

  // ---------------------------------------------------------------------
  // PC keys and Android key codes.

  /**
   * The keys of pynput's `Key` enumeration: the seventeen that have an
   * Android key code, the space bar, and the others by name.
   */
  datatype PcKey =
    | Enter | Backspace | Tab | Esc | Up | Down | Left | Right
    | PageUp | PageDown | Home | End | Delete | F10 | F9 | F8 | F7
    | Space | OtherKey(name: string)

  /** `SPECIAL_KEYS`: the Android key code a PC key sends, if it has one. */
  function SpecialKeycode(k: PcKey): Option<nat> {
    match k
    case Enter => Some(66)
    case Backspace => Some(67)
    case Tab => Some(61)
    case Esc => Some(111)
    case Up => Some(19)
    case Down => Some(20)
    case Left => Some(21)
    case Right => Some(22)
    case PageUp => Some(92)
    case PageDown => Some(93)
    case Home => Some(122)
    case End => Some(123)
    case Delete => Some(112)
    case F10 => Some(24)
    case F9 => Some(25)
    case F8 => Some(85)
    case F7 => Some(26)
    case Space => None
    case OtherKey(_) => None
  }

  /** The PC key that sends an Android key code, read off the table backwards. */
  function KeyForCode(code: nat): Option<PcKey> {
    match code
    case 66 => Some(Enter)
    case 67 => Some(Backspace)
    case 61 => Some(Tab)
    case 111 => Some(Esc)
    case 19 => Some(Up)
    case 20 => Some(Down)
    case 21 => Some(Left)
    case 22 => Some(Right)
    case 92 => Some(PageUp)
    case 93 => Some(PageDown)
    case 122 => Some(Home)
    case 123 => Some(End)
    case 112 => Some(Delete)
    case 24 => Some(F10)
    case 25 => Some(F9)
    case 85 => Some(F8)
    case 26 => Some(F7)
    case _ => None
  }

  /** Reading the table backwards finds the key again, and only codes in the table have a key. */
  lemma {:induction false} KeycodeRoundTrip(k: PcKey, code: nat)
    ensures SpecialKeycode(k) == Some(code) ==> KeyForCode(code) == Some(k)
    ensures KeyForCode(code) == Some(k) ==> SpecialKeycode(k) == Some(code)
  {
  }

  /** No two PC keys share an Android key code. */
  lemma {:induction false} SpecialKeysDistinct(a: PcKey, b: PcKey)
    requires SpecialKeycode(a).Some? && SpecialKeycode(a) == SpecialKeycode(b)
    ensures a == b
  {
    KeycodeRoundTrip(a, SpecialKeycode(a).value);
    KeycodeRoundTrip(b, SpecialKeycode(a).value);
  }
}
