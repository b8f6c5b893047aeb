/** The command listing of the main menu's command window: every command
    with a symbol, with its symbol, name and enabled flag. */
module MenuCommands {
  import opened JsValues

  /** An entry of the window's `_list`; its symbol may be missing or empty. */
  datatype MenuItem = MenuItem(name: string, symbol: Field, enabled: bool)

  /** What the listing reports for one command. */
  datatype CommandInfo = CommandInfo(symbol: string, name: string, enabled: bool)

  /** The report for an item that has a symbol. */
  function InfoOf(item: MenuItem): CommandInfo
    requires Truthy(item.symbol)
  {
    CommandInfo(item.symbol.s, item.name, item.enabled)
  }

  /** The commands of `items` that have a (non-empty) symbol, in list order. */
  function Listed(items: seq<MenuItem>): (r: seq<CommandInfo>)
    ensures |r| <= |items|
    ensures forall i :: 0 <= i < |r| ==> r[i].symbol != ""
    ensures forall it :: it in items && Truthy(it.symbol) ==> InfoOf(it) in r
    ensures forall c :: c in r ==> exists it :: it in items && Truthy(it.symbol) && c == InfoOf(it)
    decreases |items|
  {
    if items == [] then []
    else
      var front := items[..|items| - 1];
      var last := items[|items| - 1];
      assert forall it :: it in items <==> it in front || it == last;
      var r := Listed(front);
      if Truthy(last.symbol) then r + [InfoOf(last)] else r
  }

  /** `getAllAvailableCommands()` as a value: nothing when there is no list. */
  function AvailableCommands(list: Option<seq<MenuItem>>): (r: seq<CommandInfo>)
    ensures list.None? ==> r == []
    ensures list.Some? ==> r == Listed(list.value)
    ensures forall c :: c in r ==> c.symbol != ""
  {
    if list.Some? && |list.value| > 0 then Listed(list.value) else []
  }

  /** The listing keeps list order: the listing of two lists one after the
      other is the two listings one after the other. */
  lemma {:induction false} ListedConcat(a: seq<MenuItem>, b: seq<MenuItem>)
    ensures Listed(a + b) == Listed(a) + Listed(b)
    decreases |b|
  {
    if b == [] {
      assert a + b == a;
    } else {
      var b' := b[..|b| - 1];
      assert (a + b)[..|a + b| - 1] == a + b';
      ListedConcat(a, b');
    }
  }

  /** Items without a symbol never show up, wherever they are. */
  lemma UnnamedItemsIgnored(a: seq<MenuItem>, item: MenuItem, b: seq<MenuItem>)
    requires !Truthy(item.symbol)
    ensures Listed(a + [item] + b) == Listed(a + b)
  {
    ListedConcat(a + [item], b);
    ListedConcat(a, b);
    assert (a + [item])[..|a + [item]| - 1] == a;
  }

  /** The window's `getAllAvailableCommands()`. */
  method GetAllAvailableCommands(list: Option<seq<MenuItem>>) returns (actual: seq<CommandInfo>)
    ensures actual == AvailableCommands(list)
  {
    actual := [];
    if list.Some? && |list.value| > 0 {
      var items := list.value;
      var i := 0;
      while i < |items|
        invariant 0 <= i <= |items|
        invariant actual == Listed(items[..i])
      {
        assert items[..i + 1][..i] == items[..i];
        if Truthy(items[i].symbol) {
          actual := actual + [CommandInfo(items[i].symbol.s, items[i].name, items[i].enabled)];
        }
        i := i + 1;
      }
      assert items[..i] == items;
    }
  }
}
