/**
 * The vehicle inspection checklist: six predefined inspection items, items the user
 * adds, photos with captions, and the completion summary derived from them.
 */
module Checklist {
  import opened Common
  import opened Sequences
  import opened Text

  /** One inspectable point of the vehicle (`labelText` is the source's `label`, a keyword here). */
  datatype Item = Item(id: string, labelText: string, checked: bool, hasDamage: bool, notes: string)

  /** The two flags of an item that a click toggles ('checked' | 'hasDamage'). */
  datatype Flag = Checked | HasDamage

  /** A photo attached to the checklist: `url` is the local object URL of the chosen file. */
  datatype Image = Image(id: string, url: string, caption: string)

  /** The identifying fields of the vehicle and its owner. */
  datatype VehicleInfo = VehicleInfo(plate: string, model: string, color: string, clientName: string)

  datatype InfoField = Plate | Model | Color | ClientName

  /** What the save button hands over: the vehicle, every item, every photo and the notes. */
  datatype SavedChecklist = SavedChecklist(
    clientInfo: VehicleInfo, items: seq<Item>, images: seq<Image>, generalNotes: string)

  /** The labels of the six items every checklist starts with. */
  const SeedLabels: seq<string> := [
    "Verificar arranhões na lataria",
    "Verificar amassados",
    "Verificar estado dos pneus",
    "Verificar interior do veículo",
    "Verificar funcionamento dos faróis",
    "Verificar nível de combustível"]

  /** The ids of the six predefined items, '1' to '6'. */
  const SeedIds: seq<string> := ["1", "2", "3", "4", "5", "6"]

  /** The predefined items as first shown: nothing checked, no damage, no notes. */
  function SeedItems(): (r: seq<Item>)
    ensures |r| == 6 && Ids(r) == SeedIds
    ensures forall item :: item in r ==> !item.checked && !item.hasDamage && item.notes == ""
  {
    seq(6, i requires 0 <= i < 6 => Item(SeedIds[i], SeedLabels[i], false, false, ""))
  }

  /** `item[field]`. */
  function Get(item: Item, f: Flag): bool
  {
    match f
    case Checked => item.checked
    case HasDamage => item.hasDamage
  }

  function OtherFlag(f: Flag): Flag
  {
    match f
    case Checked => HasDamage
    case HasDamage => Checked
  }

  /** `{ ...item, [field]: !item[field] }`. */
  function Flip(item: Item, f: Flag): (r: Item)
    ensures Get(r, f) == !Get(item, f) && Get(r, OtherFlag(f)) == Get(item, OtherFlag(f))
    ensures r.id == item.id && r.labelText == item.labelText && r.notes == item.notes
  {
    match f
    case Checked => item.(checked := !item.checked)
    case HasDamage => item.(hasDamage := !item.hasDamage)
  }

  /** The ids of the items, in order. */
  function Ids(items: seq<Item>): (r: seq<string>)
    ensures |r| == |items| && forall id :: id in r <==> HasId(items, id)
  {
    var r := seq(|items|, i requires 0 <= i < |items| => items[i].id);
    assert forall id :: HasId(items, id) ==> id in r by {
      forall id | HasId(items, id) ensures id in r {
        var i :| 0 <= i < |items| && items[i].id == id;
        assert r[i] == id;
      }
    }
    r
  }

  /** No two items share an id. */
  predicate UniqueIds(items: seq<Item>)
  {
    forall i, j :: 0 <= i < j < |items| ==> items[i].id != items[j].id
  }

  /** `items.some(item => item.id === id)`. */
  predicate HasId(items: seq<Item>, id: string)
  {
    exists i :: 0 <= i < |items| && items[i].id == id
  }

  /** Toggles `f` on every item whose id is `id` (the `updateItems` map of `handleItemToggle`). */
  function ToggleIn(items: seq<Item>, id: string, f: Flag): seq<Item>
  {
    seq(|items|, i requires 0 <= i < |items| => if items[i].id == id then Flip(items[i], f) else items[i])
  }

  /** Sets the notes of every item whose id is `id` (the `updateItems` map of `handleItemNotes`). */
  function NotesIn(items: seq<Item>, id: string, notes: string): seq<Item>
  {
    seq(|items|, i requires 0 <= i < |items| => if items[i].id == id then items[i].(notes := notes) else items[i])
  }

  /** Both item lists of the checklist: the predefined ones and the custom ones. */
  datatype ItemLists = ItemLists(predefined: seq<Item>, custom: seq<Item>)
  {
    /** All items in display and save order: `[...checklistItems, ...customItems]`. */
    function All(): seq<Item> { predefined + custom }
  }

  /**
   * `handleItemToggle`: the predefined list is updated when it holds the id, the
   * custom list otherwise.
   */
  function Toggle(l: ItemLists, id: string, f: Flag): (r: ItemLists)
    ensures |r.predefined| == |l.predefined| && |r.custom| == |l.custom|
    ensures HasId(l.predefined, id) ==> r.custom == l.custom
    ensures !HasId(l.predefined, id) ==> r.predefined == l.predefined
  {
    if HasId(l.predefined, id) then l.(predefined := ToggleIn(l.predefined, id, f))
    else l.(custom := ToggleIn(l.custom, id, f))
  }

  /** `handleItemNotes`, with the same choice of list as `Toggle`. */
  function SetNotes(l: ItemLists, id: string, notes: string): (r: ItemLists)
    ensures |r.predefined| == |l.predefined| && |r.custom| == |l.custom|
    ensures HasId(l.predefined, id) ==> r.custom == l.custom
    ensures !HasId(l.predefined, id) ==> r.predefined == l.predefined
  {
    if HasId(l.predefined, id) then l.(predefined := NotesIn(l.predefined, id, notes))
    else l.(custom := NotesIn(l.custom, id, notes))
  }

  /** `handleAddCustomItem` on the custom list: blank text adds nothing. */
  function AddCustom(custom: seq<Item>, text: string, newId: string): (r: seq<Item>)
    ensures r == custom || (|r| == |custom| + 1 && r[..|custom|] == custom && r[|custom|].id == newId)
  {
    var trimmed := Trim(text);
    if trimmed == "" then custom else custom + [Item(newId, trimmed, false, false, "")]
  }

  /** `handleRemoveCustomItem`: keeps the custom items whose id is not `id`. */
  function RemoveCustom(l: ItemLists, id: string): (r: ItemLists)
    ensures r.predefined == l.predefined && |r.custom| <= |l.custom|
    ensures forall i :: 0 <= i < |r.custom| ==> r.custom[i].id != id
  {
    var kept := Filter(l.custom, (item: Item) => item.id != id);
    assert forall i :: 0 <= i < |kept| ==> kept[i] in kept;
    l.(custom := kept)
  }

  /** `Toggle` applied `n` times in a row. */
  function ToggleTimes(l: ItemLists, id: string, f: Flag, n: nat): ItemLists
  {
    if n == 0 then l else Toggle(ToggleTimes(l, id, f, n - 1), id, f)
  }

  predicate IsChecked(item: Item) { item.checked }

  predicate IsDamaged(item: Item) { item.hasDamage }

  /** `items.filter(item => item.checked).length`. */
  function CountChecked(items: seq<Item>): nat { |Filter(items, IsChecked)| }

  /** `items.filter(item => item.hasDamage).length`. */
  function CountDamaged(items: seq<Item>): nat { |Filter(items, IsDamaged)| }

  /**
   * `Math.round((part / whole) * 100)` in integers: the result is the percentage rounded
   * to the nearest integer, halves rounding up.
   */
  function RoundedPercent(part: nat, whole: nat): (r: nat)
    requires whole > 0
    ensures whole * (2 * r - 1) <= 200 * part < whole * (2 * r + 1)
  {
    (200 * part + whole) / (2 * whole)
  }

  // ---------------------------------------------------------------------------
  // Properties of the item operations

  /**
   * Toggling `f` on `id` flips `f` exactly on the items with that id, in the list that
   * holds it; labels, notes, the other flag, every other item and both lengths stay.
   */
  lemma ToggleFrame(l: ItemLists, id: string, f: Flag)
    ensures var r := Toggle(l, id, f);
      && |r.predefined| == |l.predefined| && |r.custom| == |l.custom|
      && (HasId(l.predefined, id) ==> r.custom == l.custom)
      && (!HasId(l.predefined, id) ==> r.predefined == l.predefined)
      && (forall i :: 0 <= i < |l.predefined| ==>
            r.predefined[i] == if l.predefined[i].id == id then Flip(l.predefined[i], f) else l.predefined[i])
      && (forall i :: 0 <= i < |l.custom| ==>
            r.custom[i] == if l.custom[i].id == id && !HasId(l.predefined, id) then Flip(l.custom[i], f) else l.custom[i])
  {
  }

  /** An id that is in neither list leaves both lists as they were. */
  lemma ToggleUnknownId(l: ItemLists, id: string, f: Flag)
    requires !HasId(l.predefined, id) && !HasId(l.custom, id)
    ensures Toggle(l, id, f) == l
  {
    assert ToggleIn(l.custom, id, f) == l.custom;
  }

  /** Toggling keeps every item's id and label, so which list holds an id never changes. */
  lemma ToggleInKeepsIds(items: seq<Item>, id: string, f: Flag, x: string)
    ensures HasId(ToggleIn(items, id, f), x) == HasId(items, x)
  {
    var r := ToggleIn(items, id, f);
    if HasId(items, x) {
      var i :| 0 <= i < |items| && items[i].id == x;
      assert r[i].id == x;
    }
    if HasId(r, x) {
      var i :| 0 <= i < |r| && r[i].id == x;
      assert items[i].id == x;
    }
  }

  /** Toggling the same flag of the same id twice restores both lists. */
  lemma ToggleTwice(l: ItemLists, id: string, f: Flag)
    ensures Toggle(Toggle(l, id, f), id, f) == l
  {
    var once := Toggle(l, id, f);
    ToggleInKeepsIds(l.predefined, id, f, id);
    if HasId(l.predefined, id) {
      assert ToggleIn(once.predefined, id, f) == l.predefined;
    } else {
      assert ToggleIn(once.custom, id, f) == l.custom;
    }
  }

  /** The flag ends up as often flipped as the parity of the number of toggles says. */
  lemma {:induction false} ToggleParity(l: ItemLists, id: string, f: Flag, n: nat)
    ensures ToggleTimes(l, id, f, n) == if n % 2 == 0 then l else Toggle(l, id, f)
  {
    if n > 0 {
      var before := ToggleTimes(l, id, f, n - 1);
      ToggleParity(l, id, f, n - 1);
      if n % 2 == 0 {
        assert before == Toggle(l, id, f);
        ToggleTwice(l, id, f);
      } else {
        assert before == l;
      }
    }
  }

  /**
   * Setting notes on `id` replaces the notes of exactly the items with that id, in the
   * list that holds it; nothing else changes.
   */
  lemma SetNotesFrame(l: ItemLists, id: string, notes: string)
    ensures var r := SetNotes(l, id, notes);
      && |r.predefined| == |l.predefined| && |r.custom| == |l.custom|
      && (HasId(l.predefined, id) ==> r.custom == l.custom)
      && (!HasId(l.predefined, id) ==> r.predefined == l.predefined)
      && (forall i :: 0 <= i < |l.predefined| ==>
            r.predefined[i] == if l.predefined[i].id == id then l.predefined[i].(notes := notes) else l.predefined[i])
      && (forall i :: 0 <= i < |l.custom| ==>
            r.custom[i] == if l.custom[i].id == id && !HasId(l.predefined, id) then l.custom[i].(notes := notes) else l.custom[i])
  {
  }

  /** Notes on an id that is in neither list change nothing. */
  lemma SetNotesUnknownId(l: ItemLists, id: string, notes: string)
    requires !HasId(l.predefined, id) && !HasId(l.custom, id)
    ensures SetNotes(l, id, notes) == l
  {
    assert NotesIn(l.custom, id, notes) == l.custom;
  }

  /**
   * Blank text adds nothing; any other text appends exactly one unchecked, undamaged,
   * note-less item labelled with the trimmed text, after the existing ones.
   */
  lemma AddCustomSpec(custom: seq<Item>, text: string, newId: string)
    ensures (forall i :: 0 <= i < |text| ==> IsWhitespace(text[i])) ==> AddCustom(custom, text, newId) == custom
    ensures !(forall i :: 0 <= i < |text| ==> IsWhitespace(text[i])) ==>
      var r := AddCustom(custom, text, newId);
      && |r| == |custom| + 1 && r[..|custom|] == custom
      && r[|custom|] == Item(newId, Trim(text), false, false, "")
      && r[|custom|].labelText != [] && !IsWhitespace(r[|custom|].labelText[0])
  {
  }

  /**
   * Removing `id` drops every custom item with that id and keeps the others in their order;
   * the predefined items are never removed.
   */
  lemma RemoveCustomSpec(l: ItemLists, id: string)
    ensures var r := RemoveCustom(l, id);
      && r.predefined == l.predefined
      && !HasId(r.custom, id)
      && IsSubsequence(r.custom, l.custom)
      && (forall item :: item in l.custom && item.id != id ==> item in r.custom)
      && forall item: Item :: item.id != id ==> multiset(r.custom)[item] == multiset(l.custom)[item]
  {
    var p := (item: Item) => item.id != id;
    var r := RemoveCustom(l, id);
    FilterSpec(l.custom, p);
    assert forall i :: 0 <= i < |r.custom| ==> r.custom[i] in r.custom;
    forall item | item in l.custom && item.id != id ensures item in r.custom {
      assert multiset(r.custom)[item] == multiset(l.custom)[item] > 0;
    }
  }

  /** Removing a custom item and then toggling its id neither resurrects it nor changes anything. */
  lemma RemoveThenToggle(l: ItemLists, id: string, f: Flag)
    requires !HasId(l.predefined, id)
    ensures Toggle(RemoveCustom(l, id), id, f) == RemoveCustom(l, id)
  {
    RemoveCustomSpec(l, id);
    ToggleUnknownId(RemoveCustom(l, id), id, f);
  }

  // ---------------------------------------------------------------------------
  // Unique ids

  /** The six predefined items have distinct ids and start with nothing checked and no damage. */
  lemma SeedItemsFresh()
    ensures UniqueIds(SeedItems())
    ensures CountChecked(SeedItems()) == 0 && CountDamaged(SeedItems()) == 0
  {
    var r := SeedItems();
    SeedItemsUnique();
    FilterKeepsNone(r, IsChecked);
    FilterKeepsNone(r, IsDamaged);
  }

  /** The predefined ids "1" to "6" are pairwise different. */
  lemma SeedItemsUnique()
    ensures UniqueIds(SeedItems())
  {
    var r := SeedItems();
    forall i, j | 0 <= i < j < 6 ensures r[i].id != r[j].id {
      assert r[i].id == SeedIds[i] && r[j].id == SeedIds[j];
      assert SeedIds[i][0] != SeedIds[j][0];
    }
  }

  /** Toggling and setting notes leave every item's id where it was, in both lists. */
  lemma EditsKeepIds(l: ItemLists, id: string, f: Flag, notes: string)
    ensures Ids(Toggle(l, id, f).All()) == Ids(l.All())
    ensures Ids(SetNotes(l, id, notes).All()) == Ids(l.All())
  {
  }

  /** Toggling and setting notes keep every item's id in place, so unique ids stay unique. */
  lemma ToggleKeepsUniqueIds(l: ItemLists, id: string, f: Flag, notes: string)
    requires UniqueIds(l.All())
    ensures UniqueIds(Toggle(l, id, f).All())
    ensures UniqueIds(SetNotes(l, id, notes).All())
  {
    var t := Toggle(l, id, f).All();
    var n := SetNotes(l, id, notes).All();
    EditsKeepIds(l, id, f, notes);
    forall i, j | 0 <= i < j < |t| ensures t[i].id != t[j].id {
      assert Ids(t)[i] == Ids(l.All())[i] && Ids(t)[j] == Ids(l.All())[j];
    }
    forall i, j | 0 <= i < j < |n| ensures n[i].id != n[j].id {
      assert Ids(n)[i] == Ids(l.All())[i] && Ids(n)[j] == Ids(l.All())[j];
    }
  }

  /** A custom item added under an id no item has keeps the ids unique. */
  lemma AddCustomKeepsUniqueIds(l: ItemLists, text: string, newId: string)
    requires UniqueIds(l.All()) && !HasId(l.All(), newId)
    ensures UniqueIds(l.(custom := AddCustom(l.custom, text, newId)).All())
  {
    var r := l.(custom := AddCustom(l.custom, text, newId)).All();
    if |r| != |l.All()| {
      assert r[..|l.All()|] == l.All();
      forall i, j | 0 <= i < j < |r| ensures r[i].id != r[j].id {
        if j == |l.All()| {
          assert r[i] == l.All()[i];
        } else {
          assert r[i] == l.All()[i] && r[j] == l.All()[j];
        }
      }
    } else {
      assert r == l.All();
    }
  }

  /** Dropping the first item keeps the ids unique. */
  lemma UniqueIdsTail(s: seq<Item>)
    requires UniqueIds(s) && s != []
    ensures UniqueIds(s[1..])
    ensures forall k :: 0 <= k < |s| - 1 ==> s[1..][k].id != s[0].id
  {
    var tail := s[1..];
    forall i, j | 0 <= i < j < |tail| ensures tail[i].id != tail[j].id {
      assert tail[i] == s[i + 1] && tail[j] == s[j + 1];
    }
  }

  /** Filtering items with unique ids keeps the ids unique. */
  lemma {:induction false} FilterKeepsUniqueIds(s: seq<Item>, p: Item -> bool)
    requires UniqueIds(s)
    ensures UniqueIds(Filter(s, p))
    decreases |s|
  {
    if s != [] {
      var tail := s[1..];
      UniqueIdsTail(s);
      FilterKeepsUniqueIds(tail, p);
      if p(s[0]) {
        var rest := Filter(tail, p);
        var r := Filter(s, p);
        assert r == [s[0]] + rest;
        FilterWithin(tail, p);
        forall k | 0 <= k < |rest| ensures rest[k].id != s[0].id {
          assert rest[k] in rest;
          var m :| 0 <= m < |tail| && tail[m] == rest[k];
        }
        forall i, j | 0 <= i < j < |r| ensures r[i].id != r[j].id {
          if i == 0 {
            assert r[j] == rest[j - 1];
          } else {
            assert r[i] == rest[i - 1] && r[j] == rest[j - 1];
          }
        }
      }
    }
  }

  /** Removing custom items keeps the ids unique. */
  lemma RemoveCustomKeepsUniqueIds(l: ItemLists, id: string)
    requires UniqueIds(l.All())
    ensures UniqueIds(RemoveCustom(l, id).All())
  {
    var p := (item: Item) => item.id != id;
    var a := l.All();
    var pre := l.predefined;
    var kept := RemoveCustom(l, id).custom;
    assert UniqueIds(l.custom) by {
      forall i, j | 0 <= i < j < |l.custom| ensures l.custom[i].id != l.custom[j].id {
        assert a[|pre| + i] == l.custom[i] && a[|pre| + j] == l.custom[j];
      }
    }
    FilterKeepsUniqueIds(l.custom, p);
    FilterWithin(l.custom, p);
    var r := RemoveCustom(l, id).All();
    assert r == pre + kept;
    forall i, j | 0 <= i < j < |r| ensures r[i].id != r[j].id {
      if j < |pre| {
        assert r[i] == a[i] && r[j] == a[j];
      } else if i >= |pre| {
        assert r[i] == kept[i - |pre|] && r[j] == kept[j - |pre|];
      } else {
        var x := kept[j - |pre|];
        assert x in kept;
        var m :| 0 <= m < |l.custom| && l.custom[m] == x;
        assert r[i] == a[i] && a[|pre| + m] == x && r[j] == x;
      }
    }
  }

  // ---------------------------------------------------------------------------
  // Properties of the summary

  /** The counts over both lists add up, and neither exceeds the number of items. */
  lemma CountsOfAll(l: ItemLists)
    ensures CountChecked(l.All()) == CountChecked(l.predefined) + CountChecked(l.custom)
    ensures CountDamaged(l.All()) == CountDamaged(l.predefined) + CountDamaged(l.custom)
    ensures CountChecked(l.All()) <= |l.All()| && CountDamaged(l.All()) <= |l.All()|
  {
    FilterConcat(l.predefined, l.custom, IsChecked);
    FilterConcat(l.predefined, l.custom, IsDamaged);
  }

  /** Multiplying by a positive number keeps `<=` both ways. */
  lemma MulCancel(a: int, b: int, c: int)
    requires a > 0 && a * b <= a * c
    ensures b <= c
  {
  }

  /** The rounded percentage of at most the whole lies between 0 and 100, and hits both ends. */
  lemma RoundedPercentBounds(part: nat, whole: nat)
    requires 0 < whole && part <= whole
    ensures RoundedPercent(part, whole) <= 100
    ensures part == 0 ==> RoundedPercent(part, whole) == 0
    ensures part == whole ==> RoundedPercent(part, whole) == 100
  {
    var r: int := RoundedPercent(part, whole);
    var wr := whole * r;
    assert whole * (2 * r - 1) == 2 * wr - whole;
    assert whole * (2 * r + 1) == 2 * wr + whole;
    assert 2 * wr - whole <= 200 * part < 2 * wr + whole;
    assert whole * (2 * r - 1) <= whole * 200;
    MulCancel(whole, 2 * r - 1, 200);
    if part == 0 {
      assert whole * (2 * r - 1) <= whole * 0;
      MulCancel(whole, 2 * r - 1, 0);
    }
    if part == whole {
      assert whole * 199 <= whole * (2 * r);
      MulCancel(whole, 199, 2 * r);
    }
  }

  /** Nothing checked counts zero; everything checked counts every item. */
  lemma CountCheckedExtremes(items: seq<Item>)
    ensures (forall i :: 0 <= i < |items| ==> !items[i].checked) ==> CountChecked(items) == 0
    ensures (forall i :: 0 <= i < |items| ==> items[i].checked) ==> CountChecked(items) == |items|
  {
    if forall i :: 0 <= i < |items| ==> !items[i].checked {
      FilterKeepsNone(items, IsChecked);
    }
    if forall i :: 0 <= i < |items| ==> items[i].checked {
      FilterKeepsAll(items, IsChecked);
    }
  }

  // ---------------------------------------------------------------------------

  /** The checklist component: each field is one of its state variables. */
  class VehicleChecklist {
    var clientInfo: VehicleInfo
    var checklistItems: seq<Item>
    var customItems: seq<Item>
    var newItemText: string
    var images: seq<Image>
    var generalNotes: string

    /**
     * The predefined list always holds the six seeded items, with their ids and labels;
     * only their flags and notes change. So the checklist is never empty.
     */
    ghost predicate Valid()
      reads this
    {
      && |checklistItems| == 6
      && forall i :: 0 <= i < 6 ==> checklistItems[i].id == SeedIds[i] && checklistItems[i].labelText == SeedLabels[i]
    }

    function Lists(): ItemLists
      reads this
    {
      ItemLists(checklistItems, customItems)
    }

    /** A fresh checklist; the vehicle fields come from the optional `vehicleInfo` prop. */
    constructor (vehicleInfo: Option<VehicleInfo>)
      ensures Valid()
      ensures clientInfo == if vehicleInfo.Some? then vehicleInfo.value else VehicleInfo("", "", "", "")
      ensures checklistItems == SeedItems()
      ensures customItems == [] && newItemText == "" && images == [] && generalNotes == ""
      ensures UniqueIds(Lists().All())
      ensures CheckedCount() == 0 && DamageCount() == 0 && CompletionPercentage() == 0
    {
      clientInfo := if vehicleInfo.Some? then vehicleInfo.value else VehicleInfo("", "", "", "");
      checklistItems := SeedItems();
      customItems := [];
      newItemText := "";
      images := [];
      generalNotes := "";
      new;
      assert Lists().All() == SeedItems();
      SeedItemsFresh();
      assert CountChecked(customItems) == 0 && CountDamaged(customItems) == 0;
    }

    /** `handleItemToggle(id, field)`. */
    method ToggleItem(id: string, field: Flag)
      requires Valid()
      modifies this
      ensures Valid()
      ensures Lists() == Toggle(old(Lists()), id, field)
      ensures UniqueIds(old(Lists()).All()) ==> UniqueIds(Lists().All())
      ensures clientInfo == old(clientInfo) && newItemText == old(newItemText)
      ensures images == old(images) && generalNotes == old(generalNotes)
    {
      if UniqueIds(Lists().All()) {
        ToggleKeepsUniqueIds(Lists(), id, field, "");
      }
      if HasId(checklistItems, id) {
        checklistItems := ToggleIn(checklistItems, id, field);
      } else {
        customItems := ToggleIn(customItems, id, field);
      }
    }

    /** `handleItemNotes(id, notes)`. */
    method SetItemNotes(id: string, notes: string)
      requires Valid()
      modifies this
      ensures Valid()
      ensures Lists() == SetNotes(old(Lists()), id, notes)
      ensures UniqueIds(old(Lists()).All()) ==> UniqueIds(Lists().All())
      ensures clientInfo == old(clientInfo) && newItemText == old(newItemText)
      ensures images == old(images) && generalNotes == old(generalNotes)
    {
      if UniqueIds(Lists().All()) {
        ToggleKeepsUniqueIds(Lists(), id, Checked, notes);
      }
      if HasId(checklistItems, id) {
        checklistItems := NotesIn(checklistItems, id, notes);
      } else {
        customItems := NotesIn(customItems, id, notes);
      }
    }

    /** Typing in the new-item field. */
    method SetNewItemText(text: string)
      requires Valid()
      modifies this
      ensures Valid()
      ensures newItemText == text
      ensures Lists() == old(Lists()) && clientInfo == old(clientInfo)
      ensures images == old(images) && generalNotes == old(generalNotes)
    {
      newItemText := text;
    }

    /**
     * `handleAddCustomItem`; `newId` stands for `custom-${Date.now()}`. Blank text changes
     * nothing; otherwise the item is appended and the field is cleared.
     */
    method AddCustomItem(newId: string)
      requires Valid()
      modifies this
      ensures Valid()
      ensures customItems == AddCustom(old(customItems), old(newItemText), newId)
      ensures UniqueIds(old(Lists()).All()) && !HasId(old(Lists()).All(), newId) ==> UniqueIds(Lists().All())
      ensures newItemText == if Trim(old(newItemText)) == "" then old(newItemText) else ""
      ensures checklistItems == old(checklistItems) && clientInfo == old(clientInfo)
      ensures images == old(images) && generalNotes == old(generalNotes)
    {
      if UniqueIds(Lists().All()) && !HasId(Lists().All(), newId) {
        AddCustomKeepsUniqueIds(Lists(), newItemText, newId);
      }
      var trimmed := Trim(newItemText);
      if trimmed != "" {
        customItems := customItems + [Item(newId, trimmed, false, false, "")];
        newItemText := "";
      }
    }

    /** `handleRemoveCustomItem(id)`. */
    method RemoveCustomItem(id: string)
      requires Valid()
      modifies this
      ensures Valid()
      ensures Lists() == RemoveCustom(old(Lists()), id)
      ensures UniqueIds(old(Lists()).All()) ==> UniqueIds(Lists().All())
      ensures clientInfo == old(clientInfo) && newItemText == old(newItemText)
      ensures images == old(images) && generalNotes == old(generalNotes)
    {
      if UniqueIds(Lists().All()) {
        RemoveCustomKeepsUniqueIds(Lists(), id);
      }
      customItems := Filter(customItems, (item: Item) => item.id != id);
    }

    /**
     * `handleImageUpload`: with at least one file chosen, one photo of the first file is
     * appended with an empty caption. `newId` stands for `img-${Date.now()}` and
     * `createObjectUrl` for `URL.createObjectURL`.
     */
    method UploadImage(files: seq<File>, newId: string, createObjectUrl: File -> string)
      requires Valid()
      modifies this
      ensures Valid()
      ensures images == if |files| > 0 then old(images) + [Image(newId, createObjectUrl(files[0]), "")] else old(images)
      ensures Lists() == old(Lists()) && clientInfo == old(clientInfo)
      ensures newItemText == old(newItemText) && generalNotes == old(generalNotes)
    {
      if |files| > 0 {
        var imageUrl := createObjectUrl(files[0]);
        images := images + [Image(newId, imageUrl, "")];
      }
    }

    /** `handleImageCaption(id, caption)`. */
    method SetImageCaption(id: string, caption: string)
      requires Valid()
      modifies this
      ensures Valid()
      ensures images == CaptionIn(old(images), id, caption)
      ensures Lists() == old(Lists()) && clientInfo == old(clientInfo)
      ensures newItemText == old(newItemText) && generalNotes == old(generalNotes)
    {
      images := CaptionIn(images, id, caption);
    }

    /** `handleRemoveImage(id)`. */
    method RemoveImage(id: string)
      requires Valid()
      modifies this
      ensures Valid()
      ensures images == WithoutImage(old(images), id)
      ensures Lists() == old(Lists()) && clientInfo == old(clientInfo)
      ensures newItemText == old(newItemText) && generalNotes == old(generalNotes)
    {
      images := WithoutImage(images, id);
    }

    /** `handleClientInfoChange(field, value)`. */
    method ChangeClientInfo(field: InfoField, value: string)
      requires Valid()
      modifies this
      ensures Valid()
      ensures clientInfo == WithInfo(old(clientInfo), field, value)
      ensures Lists() == old(Lists()) && images == old(images)
      ensures newItemText == old(newItemText) && generalNotes == old(generalNotes)
    {
      clientInfo := WithInfo(clientInfo, field, value);
    }

    /** Typing in the general-notes field. */
    method SetGeneralNotes(notes: string)
      requires Valid()
      modifies this
      ensures Valid()
      ensures generalNotes == notes
      ensures Lists() == old(Lists()) && images == old(images)
      ensures newItemText == old(newItemText) && clientInfo == old(clientInfo)
    {
      generalNotes := notes;
    }

    /** The number of items, predefined and custom; never below six. */
    function TotalCount(): (n: nat)
      reads this
      requires Valid()
      ensures n >= 6
      ensures n == |checklistItems| + |customItems|
    {
      |Lists().All()|
    }

    /** The "items checked" figure of the summary. */
    function CheckedCount(): (n: nat)
      reads this
      requires Valid()
      ensures n <= TotalCount()
      ensures n == CountChecked(checklistItems) + CountChecked(customItems)
    {
      CountsOfAll(Lists());
      CountChecked(Lists().All())
    }

    /** The "damage found" figure of the summary. */
    function DamageCount(): (n: nat)
      reads this
      requires Valid()
      ensures n <= TotalCount()
      ensures n == CountDamaged(checklistItems) + CountDamaged(customItems)
    {
      CountsOfAll(Lists());
      CountDamaged(Lists().All())
    }

    /**
     * `getCompletionPercentage`: the share of checked items over both lists, rounded to
     * the nearest percent; 0 with nothing checked, 100 with everything checked. The
     * division needs no guard, because the six predefined items are always there.
     */
    function CompletionPercentage(): (r: nat)
      reads this
      requires Valid()
      ensures r <= 100
      ensures TotalCount() * (2 * r - 1) <= 200 * CheckedCount() < TotalCount() * (2 * r + 1)
      ensures (forall i :: 0 <= i < |Lists().All()| ==> !Lists().All()[i].checked) ==> r == 0
      ensures (forall i :: 0 <= i < |Lists().All()| ==> Lists().All()[i].checked) ==> r == 100
    {
      CountsOfAll(Lists());
      CountCheckedExtremes(Lists().All());
      RoundedPercentBounds(CheckedCount(), TotalCount());
      RoundedPercent(CheckedCount(), TotalCount())
    }

    /**
     * `handleSaveChecklist`'s bundle: every item, the predefined ones first and the
     * custom ones after them in their order, with every photo and the notes.
     */
    function Saved(): (r: SavedChecklist)
      reads this
      ensures |r.items| == |checklistItems| + |customItems|
      ensures r.items[..|checklistItems|] == checklistItems && r.items[|checklistItems|..] == customItems
      ensures r.images == images && r.clientInfo == clientInfo && r.generalNotes == generalNotes
    {
      SavedChecklist(clientInfo, Lists().All(), images, generalNotes)
    }
  }

  // ---------------------------------------------------------------------------
  // Photos and vehicle fields

  /** Sets the caption of every photo whose id is `id`. */
  function CaptionIn(images: seq<Image>, id: string, caption: string): (r: seq<Image>)
    ensures |r| == |images| && forall i :: 0 <= i < |images| ==> r[i].id == images[i].id && r[i].url == images[i].url
  {
    seq(|images|, i requires 0 <= i < |images| => if images[i].id == id then images[i].(caption := caption) else images[i])
  }

  /** Keeps the photos whose id is not `id`. */
  function WithoutImage(images: seq<Image>, id: string): (r: seq<Image>)
    ensures |r| <= |images| && forall i :: 0 <= i < |r| ==> r[i].id != id
  {
    var kept := Filter(images, (img: Image) => img.id != id);
    assert forall i :: 0 <= i < |kept| ==> kept[i] in kept;
    kept
  }

  /** `{ ...clientInfo, [field]: value }`. */
  function WithInfo(info: VehicleInfo, field: InfoField, value: string): (r: VehicleInfo)
    ensures field != Plate ==> r.plate == info.plate
    ensures field != Model ==> r.model == info.model
    ensures field != Color ==> r.color == info.color
    ensures field != ClientName ==> r.clientName == info.clientName
  {
    match field
    case Plate => info.(plate := value)
    case Model => info.(model := value)
    case Color => info.(color := value)
    case ClientName => info.(clientName := value)
  }

  /** A caption change touches only the caption of the photos with that id. */
  lemma CaptionFrame(images: seq<Image>, id: string, caption: string)
    ensures var r := CaptionIn(images, id, caption);
      && |r| == |images|
      && forall i :: 0 <= i < |images| ==>
           && r[i].id == images[i].id && r[i].url == images[i].url
           && r[i].caption == if images[i].id == id then caption else images[i].caption
  {
  }

  /** Removing a photo drops every photo with that id and keeps the others in order. */
  lemma WithoutImageSpec(images: seq<Image>, id: string)
    ensures var r := WithoutImage(images, id);
      && (forall i :: 0 <= i < |r| ==> r[i].id != id)
      && IsSubsequence(r, images)
      && (forall img :: img in images && img.id != id ==> img in r)
      && forall img: Image :: img.id != id ==> multiset(r)[img] == multiset(images)[img]
  {
    var p := (img: Image) => img.id != id;
    var r := WithoutImage(images, id);
    FilterSpec(images, p);
    assert forall i :: 0 <= i < |r| ==> r[i] in r;
    forall img | img in images && img.id != id ensures img in r {
      assert multiset(r)[img] == multiset(images)[img] > 0;
    }
  }

  /** A vehicle-field change sets that field and leaves the other three. */
  lemma WithInfoFrame(info: VehicleInfo, field: InfoField, value: string)
    ensures var r := WithInfo(info, field, value);
      && (r.plate == if field == Plate then value else info.plate)
      && (r.model == if field == Model then value else info.model)
      && (r.color == if field == Color then value else info.color)
      && (r.clientName == if field == ClientName then value else info.clientName)
  {
  }
}
