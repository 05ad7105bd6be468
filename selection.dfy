/** The per-user selection lists of the subscription menu and of the
    registration course menu: how a button's callback data names an entry,
    and how one tap adds or removes it (`indexOf`, then `splice` or `push`). */
module Selection {
  import opened Text

  /** `list.indexOf(x)`: the first position holding `x`, or -1. */
  function IndexOf(list: seq<string>, x: string): (i: int)
    ensures -1 <= i < |list|
    ensures i >= 0 ==> list[i] == x && x !in list[..i]
    ensures i == -1 <==> x !in list
  {
    if list == [] then -1
    else if list[0] == x then 0
    else
      var j := IndexOf(list[1..], x);
      if j == -1 then -1
      else
        assert list[..j + 1] == [list[0]] + list[1..][..j];
        j + 1
  }

  /** The list after one tap on `name`: `indexOf`, then `splice(i, 1)` when
      the name is present and `push` when it is not. */
  function Toggle(list: seq<string>, name: string): seq<string>
  {
    var i := IndexOf(list, name);
    if i > -1 then list[..i] + list[i + 1..] else list + [name]
  }

  /** A tap on a selected name removes its first occurrence and nothing
      else; a tap on any other name appends it. */
  lemma ToggleEdits(list: seq<string>, name: string)
    ensures name in list ==>
      exists i :: 0 <= i < |list| && list[i] == name && name !in list[..i]
        && Toggle(list, name) == list[..i] + list[i + 1..]
    ensures name !in list ==> Toggle(list, name) == list + [name]
  {
    var i := IndexOf(list, name);
    if i > -1 {
      assert list[i] == name && name !in list[..i];
    }
  }

  /** As a multiset, a tap removes one copy of a selected name and leaves
      every other name's count alone. */
  lemma ToggleCounts(list: seq<string>, name: string)
    ensures name in list ==> multiset(Toggle(list, name)) == multiset(list) - multiset{name}
    ensures name !in list ==> multiset(Toggle(list, name)) == multiset(list) + multiset{name}
    ensures forall x :: x != name ==> multiset(Toggle(list, name))[x] == multiset(list)[x]
  {
    var i := IndexOf(list, name);
    if i > -1 {
      assert list == list[..i] + [list[i]] + list[i + 1..];
    }
  }

  /** No entry appears twice. */
  predicate NoDuplicates(list: seq<string>) {
    forall i, j :: 0 <= i < j < |list| ==> list[i] != list[j]
  }

  /** Removing one position keeps a list free of duplicates. */
  lemma RemoveAtKeepsDistinct(list: seq<string>, i: int)
    requires NoDuplicates(list) && 0 <= i < |list|
    ensures NoDuplicates(list[..i] + list[i + 1..])
  {
    var r := list[..i] + list[i + 1..];
    forall a, b | 0 <= a < b < |r| ensures r[a] != r[b] {
      var a' := if a < i then a else a + 1;
      var b' := if b < i then b else b + 1;
      assert r[a] == list[a'] && r[b] == list[b'];
    }
  }

  /** On a list without duplicates a tap flips the membership of the tapped
      name and keeps the list free of duplicates. */
  lemma ToggleFlips(list: seq<string>, name: string)
    requires NoDuplicates(list)
    ensures NoDuplicates(Toggle(list, name))
    ensures name in Toggle(list, name) <==> name !in list
  {
    var i := IndexOf(list, name);
    if i > -1 {
      var r := list[..i] + list[i + 1..];
      assert Toggle(list, name) == r;
      RemoveAtKeepsDistinct(list, i);
      forall k | 0 <= k < |r| ensures r[k] != name {
        var k' := if k < i then k else k + 1;
        assert r[k] == list[k'] && k' != i;
      }
    } else {
      var r := list + [name];
      assert Toggle(list, name) == r;
      forall a, b | 0 <= a < b < |r| ensures r[a] != r[b] {
        if b == |list| {
          assert r[a] == list[a];
        }
      }
    }
  }

  /** Tapping a name that was not selected, and tapping it again, gives the
      list back. */
  lemma ToggleTwice(list: seq<string>, name: string)
    requires name !in list
    ensures Toggle(Toggle(list, name), name) == list
  {
    var once := list + [name];
    assert once[..|list|] == list;
  }

  /** `data.split("_").slice(3).join("_")`: every `_`-separated field after
      the third, joined again with `_`; the empty string when there are
      fewer than four fields. */
  function CallbackName(data: string): (name: string)
    ensures !('_' in data) ==> name == []
  {
    var parts := Split(data, {'_'});
    if !('_' in data) then
      SplitNoSeparator(data, {'_'});
      []
    else if |parts| > 3 then Join(parts[3..], '_') else []
  }

  /** For callback data `a_b_id_name` whose first three fields hold no `_`,
      the parsed name is `name` exactly, underscores and all. */
  lemma CallbackNameRoundTrip(a: string, b: string, id: string, name: string)
    requires NoneOf(a, {'_'}) && NoneOf(b, {'_'}) && NoneOf(id, {'_'})
    ensures CallbackName(a + "_" + b + "_" + id + "_" + name) == name
  {
    var seps := {'_'};
    var data := a + "_" + b + "_" + id + "_" + name;
    assert data == a + ['_'] + (b + ['_'] + (id + ['_'] + name));
    SplitPrefix(a, '_', b + ['_'] + (id + ['_'] + name), seps);
    SplitPrefix(b, '_', id + ['_'] + name, seps);
    SplitPrefix(id, '_', name, seps);
    var parts := Split(data, seps);
    assert parts == [a, b, id] + Split(name, seps);
    assert parts[3..] == Split(name, seps);
    assert data[|a|] == '_';
    JoinSplit(name, '_');
  }
}
