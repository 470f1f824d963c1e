/**
 * The macro manager of the settings tab: a list box showing every macro as
 * `name : text`, and the add and delete buttons that edit the macros of a
 * `ConfigManager` through it.
 */
module Settings {
  import opened Wrappers
  import opened Text
  import opened Config

  /** How the list box shows one macro. */
  function EntryLine(e: Entry): string {
    e.key + " : " + e.value
  }

  /** The list box lines for a dictionary of macros, in its iteration order. */
  function Lines(d: Dict): (items: seq<string>)
    ensures |items| == |d|
    ensures forall i :: 0 <= i < |d| ==> items[i] == EntryLine(d[i])
    decreases |d|
  {
    if d == [] then [] else Lines(d[..|d| - 1]) + [EntryLine(d[|d| - 1])]
  }

  /** The separator between name and text. */
  const Separator := " : "

  /** `item.split(" : ")[0]`: the label `_del_macro` reads back out of a list line. */
  function NameOfItem(item: string): string {
    Before(item, Separator)
  }

  /**
   * Reading the label back out of a line gives the macro's own name exactly
   * when the name followed by a blank holds no `" : "`: a name containing
   * the separator, or ending in `" :"`, is cut short.
   */
  lemma {:induction false} NameRecoveredIff(e: Entry)
    ensures NameOfItem(EntryLine(e)) == e.key <==> !Contains(e.key + " ", Separator)
  {
    var name := e.key;
    var s := EntryLine(e);
    assert s == (name + " ") + (":" + " " + e.value);
    SeparatorAfterName(name, e.value);
    var k := FirstIndex(s, Separator);
    FirstIndexIsFirst(s, Separator);
    assert Before(s, Separator) == s[..k];
    assert name == s[..|name|];
    if Contains(name + " ", Separator) {
      var j: nat :| j <= |name + " "| && OccursAt(name + " ", Separator, j);
      PrefixOccurrence(name + " ", ":" + " " + e.value, j);
      assert k <= j < |name|;
    } else {
      forall j | 0 <= j < |name|
        ensures !OccursAt(s, Separator, j)
      {
        if OccursAt(s, Separator, j) {
          EarlyOccurrence(name, e.value, j);
        }
      }
      assert k == |name|;
    }
  }

  /** The separator the line puts after the name is an occurrence of it. */
  lemma {:induction false} SeparatorAfterName(name: string, text: string)
    ensures OccursAt(name + " : " + text, Separator, |name|)
  {
    var s := name + " : " + text;
    assert s[|name|..|name| + 3] == " : ";
  }

  /** An occurrence in a prefix is an occurrence in the whole. */
  lemma {:induction false} PrefixOccurrence(a: string, b: string, j: nat)
    requires OccursAt(a, Separator, j)
    ensures OccursAt(a + b, Separator, j)
  {
    assert (a + b)[j..j + |Separator|] == a[j..j + |Separator|];
  }

  /** An occurrence that starts inside the name lies within the name and the blank after it. */
  lemma {:induction false} EarlyOccurrence(name: string, text: string, j: nat)
    requires j < |name| && OccursAt(name + " : " + text, Separator, j)
    ensures OccursAt(name + " ", Separator, j)
  {
    var s := name + " : " + text;
    assert s[j..j + 3][1] == s[j + 1] == ':';
    assert s[|name|] == ' ';
    assert s[j..j + 3] == (name + " ")[j..j + 3];
  }

  /** A macro named `a : b` is shown as `a : b : y`, and read back as `a`. */
  lemma {:induction false} WrongMacroNamed()
    ensures NameOfItem(EntryLine(Entry("a : b", "y"))) == "a"
  {
    assert EntryLine(Entry("a : b", "y")) == EntryLine(Entry("a", "b : y"));
    assert !Contains("a" + " ", Separator);
    NameRecoveredIff(Entry("a", "b : y"));
  }

  /**
   * The list shows `a : x` and `a : b : y`; deleting the second line removes
   * the macro `a`, and the macro `a : b` stays.
   */
  lemma {:induction false} WrongMacroRemoved()
    ensures var d := [Entry("a", "x"), Entry("a : b", "y")];
      var r := Remove(d, NameOfItem(Lines(d)[1]));
      r == [Entry("a : b", "y")]
  {
    var d := [Entry("a", "x"), Entry("a : b", "y")];
    WrongMacroNamed();
    assert Lines(d)[1] == EntryLine(Entry("a : b", "y"));
    assert IndexOf(d, "a") == 0;
    assert d[1..] == [Entry("a : b", "y")];
  }

  /** The list box of the macro manager and the configuration it edits. */
  class SettingsTab {
    const cfg: ConfigManager
    /** The lines of the list box. */
    var items: seq<string>

    ghost predicate Valid()
      reads this, cfg
    {
      cfg.Valid() && items == Lines(cfg.macros)
    }

    /** `__init__`: the list box is filled from the configuration. */
    constructor (config: ConfigManager)
      requires config.Valid()
      ensures Valid() && cfg == config
    {
      cfg := config;
      items := [];
      new;
      RefreshList();
    }

    /** `_refresh_list`: empties the list box, then inserts one line per macro, in order. */
    method RefreshList()
      modifies this`items
      ensures items == Lines(cfg.macros)
    {
      var shown: seq<string> := [];
      var macros := cfg.macros;
      for i := 0 to |macros|
        invariant shown == Lines(macros[..i])
      {
        assert macros[..i + 1][..i] == macros[..i];
        shown := shown + [EntryLine(macros[i])];
      }
      assert macros[..|macros|] == macros;
      items := shown;
    }

    /**
     * `_add_macro`: a cancelled or empty label or text aborts with nothing
     * changed; otherwise the macro is set, saved and the list refreshed.
     */
    method AddMacro(name: Option<string>, text: Option<string>)
      requires Valid()
      modifies this`items, cfg`macros, cfg`file
      ensures Valid()
      ensures name.None? || name == Some([]) || text.None? || text == Some([]) ==>
        cfg.macros == old(cfg.macros) && cfg.file == old(cfg.file)
      ensures name.Some? && name.value != [] && text.Some? && text.value != [] ==>
        cfg.macros == Put(old(cfg.macros), name.value, text.value) && cfg.file == Stored(Some(cfg.macros))
    {
      if name.None? || name.value == [] {
        return;
      }
      if text.None? || text.value == [] {
        return;
      }
      cfg.AddMacro(name.value, text.value);
      RefreshList();
    }

    /**
     * `_del_macro`: with no selection nothing changes; otherwise the label is
     * read back out of the selected line and that label is removed.
     */
    method DelMacro(selection: Option<nat>)
      requires Valid()
      requires selection.Some? ==> selection.value < |items|
      modifies this`items, cfg`macros, cfg`file
      ensures Valid()
      ensures selection.None? ==> cfg.macros == old(cfg.macros) && cfg.file == old(cfg.file)
      ensures selection.Some? ==>
        var name := NameOfItem(old(items)[selection.value]);
        && cfg.macros == (if HasKey(old(cfg.macros), name) then Remove(old(cfg.macros), name) else old(cfg.macros))
        && cfg.file == (if HasKey(old(cfg.macros), name) then Stored(Some(cfg.macros)) else old(cfg.file))
    {
      if selection.None? {
        return;
      }
      var item := items[selection.value];
      var name := Before(item, " : ");
      cfg.RemoveMacro(name);
      RefreshList();
    }

    /**
     * The deletion `_del_macro` evidently intends: the macro shown on the
     * selected line is the one removed, and every other macro stays.
     */
    method DelSelected(selection: Option<nat>)
      requires Valid()
      requires selection.Some? ==> selection.value < |items|
      modifies this`items, cfg`macros, cfg`file
      ensures Valid()
      ensures selection.None? ==> cfg.macros == old(cfg.macros) && cfg.file == old(cfg.file)
      ensures selection.Some? ==>
        var shown := old(cfg.macros)[selection.value];
        && old(items)[selection.value] == EntryLine(shown)
        && cfg.macros == Remove(old(cfg.macros), shown.key)
        && cfg.file == Stored(Some(cfg.macros))
        && Get(cfg.macros, shown.key) == None
        && forall k :: k != shown.key ==> Get(cfg.macros, k) == Get(old(cfg.macros), k)
    {
      if selection.None? {
        return;
      }
      var shown := cfg.macros[selection.value];
      GetAt(cfg.macros, selection.value);
      RemoveGet(cfg.macros, shown.key);
      cfg.RemoveMacro(shown.key);
      RefreshList();
    }
  }
}
