/**
 * The world: immutable items, rooms that hold directed named connections and an
 * ordered item list, and the player who stands in one room and carries an
 * ordered inventory.
 */
module World {
  import opened Wrappers
  import opened Text

  /** An item never changes after it is made; the description is never read by a command. */
  datatype Item = Item(name: string, description: string)

  /** The filter of `Room.getItem`: the item's name equals the wanted one, ignoring case. */
  predicate NameMatches(item: Item, wanted: string)
  {
    EqualsIgnoreCase(item.name, wanted)
  }

  /** Position of the first item, in list order, whose name matches `wanted`. */
  function FindFirst(items: seq<Item>, wanted: string): (r: Option<nat>)
    ensures r.Some? ==> r.value < |items| && NameMatches(items[r.value], wanted)
    ensures r.Some? ==> forall j :: 0 <= j < r.value ==> !NameMatches(items[j], wanted)
    ensures r.None? <==> forall j :: 0 <= j < |items| ==> !NameMatches(items[j], wanted)
  {
    if items == [] then None
    else if NameMatches(items[0], wanted) then Some(0)
    else match FindFirst(items[1..], wanted)
      case None => None
      case Some(k) => Some(k + 1)
  }

  /**
   * `List.remove(Object)`: drops the first element equal to `x`, or nothing when
   * there is none.
   */
  function RemoveFirst(items: seq<Item>, x: Item): seq<Item>
  {
    if items == [] then []
    else if items[0] == x then items[1..]
    else [items[0]] + RemoveFirst(items[1..], x)
  }

  /** Removal takes out one copy of `x` when there is one and changes nothing otherwise. */
  lemma {:induction false} RemoveFirstSpec(items: seq<Item>, x: Item)
    ensures x in items ==> |RemoveFirst(items, x)| == |items| - 1
    ensures x in items ==> multiset(RemoveFirst(items, x)) == multiset(items) - multiset{x}
    ensures x !in items ==> RemoveFirst(items, x) == items
  {
    if items != [] {
      assert items == [items[0]] + items[1..];
      if items[0] != x {
        RemoveFirstSpec(items[1..], x);
      }
    }
  }

  /**
   * Removing the item that `FindFirst` found removes exactly that position:
   * an earlier element equal to it would have had a matching name.
   */
  lemma {:induction false} RemoveFoundItem(items: seq<Item>, wanted: string, k: nat)
    requires FindFirst(items, wanted) == Some(k)
    ensures RemoveFirst(items, items[k]) == items[..k] + items[k + 1..]
  {
    if k > 0 {
      var rest := items[1..];
      assert !NameMatches(items[0], wanted) && NameMatches(items[k], wanted);
      assert items[0] != items[k];
      assert FindFirst(rest, wanted) == Some(k - 1);
      RemoveFoundItem(rest, wanted, k - 1);
      assert rest[k - 1] == items[k];
      assert RemoveFirst(items, items[k]) == [items[0]] + (rest[..k - 1] + rest[k..]);
      assert [items[0]] + rest[..k - 1] == items[..k];
      assert rest[k..] == items[k + 1..];
    }
  }

  function Names(items: seq<Item>): seq<string>
  {
    seq(|items|, i requires 0 <= i < |items| => items[i].name)
  }

  /** `Room.listItems`: "No items." for an empty room, else the names joined by ", ". */
  function ListItemsOf(items: seq<Item>): string
  {
    if items == [] then "No items." else Join(Names(items), ", ")
  }

  /**
   * The listing reads "No items." exactly when the room is empty or holds one
   * single item that is itself named "No items.": two or more names always
   * carry the ", " separator.
   */
  lemma ListItemsNoItemsIff(items: seq<Item>)
    ensures ListItemsOf(items) == "No items." <==>
            items == [] || (|items| == 1 && items[0].name == "No items.")
  {
    if |items| >= 2 {
      var names := Names(items);
      JoinSeparatorAfterFirst(names, ", ");
      var r := Join(names, ", ");
      assert r[|names[0]|] == ',';
    } else if |items| == 1 {
      assert Names(items) == [items[0].name];
    }
  }

  /** The listing of a single item is its name. */
  lemma ListItemsSingle(item: Item)
    ensures ListItemsOf([item]) == item.name
  {
    assert Names([item]) == [item.name];
  }

  /** A further item adds ", " and its name at the end of a non-empty listing. */
  lemma ListItemsAppend(items: seq<Item>, item: Item)
    requires items != []
    ensures ListItemsOf(items + [item]) == ListItemsOf(items) + ", " + item.name
  {
    assert Names(items + [item]) == Names(items) + [item.name];
    JoinAppend(Names(items), item.name, ", ");
  }

  class Room {
    const name: string
    const description: string
    var connections: map<string, Room>
    var items: seq<Item>

    constructor (name: string, description: string)
      ensures this.name == name && this.description == description
      ensures connections == map[] && items == []
    {
      this.name := name;
      this.description := description;
      connections := map[];
      items := [];
    }

    /** Adds or replaces the passage in `direction`. */
    method AddConnection(direction: string, room: Room)
      modifies this
      ensures connections == old(connections)[direction := room]
      ensures items == old(items)
    {
      connections := connections[direction := room];
    }

    /** The room reached in `direction`, absent when there is no such passage. */
    function GetConnection(direction: string): (r: Option<Room>)
      reads this
      ensures r.Some? <==> direction in connections
      ensures r.Some? ==> r.value == connections[direction]
    {
      if direction in connections then Some(connections[direction]) else None
    }

    method AddItem(item: Item)
      modifies this
      ensures items == old(items) + [item]
      ensures connections == old(connections)
    {
      items := items + [item];
    }

    method RemoveItem(item: Item)
      modifies this
      ensures items == RemoveFirst(old(items), item)
      ensures item in old(items) ==> multiset(items) == multiset(old(items)) - multiset{item}
      ensures connections == old(connections)
    {
      RemoveFirstSpec(items, item);
      items := RemoveFirst(items, item);
    }

    /** The first item whose name matches `itemName` ignoring case, absent when none does. */
    function GetItem(itemName: string): (r: Option<Item>)
      reads this
      ensures r.None? <==> forall i :: 0 <= i < |items| ==> !NameMatches(items[i], itemName)
      ensures r.Some? ==> FindFirst(items, itemName).Some? &&
                          r.value == items[FindFirst(items, itemName).value]
    {
      match FindFirst(items, itemName)
      case None => None
      case Some(k) => Some(items[k])
    }
  }

  class Player {
    const name: string
    var currentRoom: Room
    var inventory: seq<Item>

    constructor (name: string, startingRoom: Room)
      ensures this.name == name && currentRoom == startingRoom && inventory == []
    {
      this.name := name;
      currentRoom := startingRoom;
      inventory := [];
    }

    method SetCurrentRoom(room: Room)
      modifies this
      ensures currentRoom == room && inventory == old(inventory)
    {
      currentRoom := room;
    }

    /** Appends, so the inventory keeps pick-up order. */
    method AddItem(item: Item)
      modifies this
      ensures inventory == old(inventory) + [item] && currentRoom == old(currentRoom)
    {
      inventory := inventory + [item];
    }
  }
}
