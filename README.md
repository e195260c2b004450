# MUD controller, modelled in Dafny

A model of the text-adventure interpreter in `solution.hw2/src/MUDController.java`.
A player walks between rooms along named, one-way passages, picks items up from
the room they stand in and lists what they carry. An already trimmed and lower-cased
input line is split at its first single space into a command and an argument. The
command selects one of the branches `look`, `move`, `pick`, `inventory`, `help` and
`quit`/`exit`, or falls through to "Unknown command!". `quit` and `exit` clear the
`running` flag that keeps the game loop going.

The model has five modules:

- `Wrappers`: an `Option` type. It stands for Java's `null` results.
- `Text`: the `java.lang.String` operations the program uses. These are `trim`,
  `toLowerCase` and `equalsIgnoreCase` on ASCII letters, `split(" ", 2)`,
  `startsWith` and `String.join`. Each has lemmas that state what it computes.
- `World`: `Item` is an immutable datatype. `Room` and `Player` are classes whose
  methods update their fields in place, as the Java objects do. Pure helpers
  define first-match lookup, first-occurrence removal and the item listing.
- `Controller`:
  - `Parse` turns a line into a `Command`.
  - The `MUDController` class holds the player, the `running` flag and a ghost set
    of the world's rooms.
  - Its methods `LookAround`, `Move`, `PickUp`, `CheckInventory` and `HandleInput`
    return the lines the Java code prints. There is one sequence element per
    `println` call.
  - `RunGameLoop` runs the loop over a given sequence of input lines.
- `Bootstrap`: the world that `main` builds, and a play-through of it. The player
  takes the axe, lists the inventory, walks forward and back, repeats two failing
  commands, enters a blank line and quits. The model proves the responses to these
  eight commands and that the game has stopped at the end.

Three details of the code that are easy to misread:

- The inventory header is `"You are carrying: "`, with the trailing space that the
  code prints.
- A line is split at the first single space, not at a run of whitespace.
- `listItems` returns `"No items."` for an empty room. It also returns it for a room
  whose only item is itself named `No items.`, so "No items." does not mean
  "empty". `World.ListItemsNoItemsIff` states the exact condition.

## Model

| member | source | states |
|---|---|---|
| Text.TrimStartSpec | solution.hw2/src/MUDController.java:20 | the leading trim keeps a suffix, drops only characters at or below U+0020, and the kept part does not start with one |
| Text.TrimEndSpec | solution.hw2/src/MUDController.java:20 | the trailing trim keeps a prefix, drops only characters at or below U+0020, and the kept part does not end with one |
| Text.TrimSpec | solution.hw2/src/MUDController.java:20 | `trim` returns the slice between the first and the last character above U+0020; everything outside that slice is trimmable |
| Text.ToLowerSpec | solution.hw2/src/MUDController.java:20 | lower-casing keeps the length and maps each character on its own (ASCII A-Z to a-z) |
| Text.CharEqualsIgnoreCaseIff | solution.hw2/src/MUDController.java:196 | the character test of `equalsIgnoreCase` holds iff both characters lower-case to the same one |
| Text.EqualsIgnoreCaseIff | solution.hw2/src/MUDController.java:196 | `equalsIgnoreCase` holds iff the two lower-cased strings are equal |
| Text.EqualsIgnoreCaseReflexive | solution.hw2/src/MUDController.java:196 | every name matches itself ignoring case |
| Text.IndexOf | solution.hw2/src/MUDController.java:26 | the result is the first position holding the character, and absent iff the character does not occur |
| Text.SplitAtFirstSpaceSpec | solution.hw2/src/MUDController.java:26-28 | the command holds no space; if the line has a space, command + " " + argument is the line; if not, the argument is "" |
| Text.SplitAtFirstSpaceWord | solution.hw2/src/MUDController.java:26-28 | a space-free word followed by a space and any rest splits back into exactly that word and that rest, and the word alone splits into (word, "") |
| Text.JoinAppend | solution.hw2/src/MUDController.java:200 | joining one more part adds the separator and that part at the end |
| Text.JoinSeparatorAfterFirst | solution.hw2/src/MUDController.java:200 | with two or more parts, the separator follows the first part directly |
| World.FindFirst | solution.hw2/src/MUDController.java:195-197 | the result is the first position, in list order, whose name matches ignoring case, and absent iff no item matches |
| World.RemoveFirstSpec | solution.hw2/src/MUDController.java:191-193 | `List.remove` of a present item removes one copy (length minus one, multiset minus that item); removing an absent item changes nothing |
| World.RemoveFoundItem | solution.hw2/src/MUDController.java:191-193 | removing the item that the lookup found deletes exactly the found position, because no earlier element can equal it |
| World.ListItemsNoItemsIff | solution.hw2/src/MUDController.java:199-201 | the listing is "No items." iff the room is empty or holds a single item named "No items." |
| World.ListItemsSingle | solution.hw2/src/MUDController.java:200 | a room with one item lists just that item's name |
| World.ListItemsAppend | solution.hw2/src/MUDController.java:200 | each further item adds ", " and its name at the end, so names appear in list order |
| World.Room.constructor | solution.hw2/src/MUDController.java:164-169 | a new room has its name and description, no passages and no items |
| World.Room.AddConnection | solution.hw2/src/MUDController.java:179-181 | the passage map gains or replaces the one entry for the direction; the items are unchanged |
| World.Room.GetConnection | solution.hw2/src/MUDController.java:183-185 | present iff the direction is a key of the map, and then it is the mapped room |
| World.Room.AddItem | solution.hw2/src/MUDController.java:187-189 | the item is appended to the room's list; the passages are unchanged |
| World.Room.RemoveItem | solution.hw2/src/MUDController.java:191-193 | the first equal item is removed; a present item's multiset count drops by one; the passages are unchanged |
| World.Room.GetItem | solution.hw2/src/MUDController.java:195-197 | absent iff no item matches the name ignoring case; otherwise it is the item at the first matching position |
| World.Player.constructor | solution.hw2/src/MUDController.java:135-139 | a new player stands in the starting room with an empty inventory |
| World.Player.SetCurrentRoom | solution.hw2/src/MUDController.java:145-147 | the player stands in the given room; the inventory is unchanged |
| World.Player.AddItem | solution.hw2/src/MUDController.java:149-151 | the item is appended to the inventory; the current room is unchanged |
| Controller.FirstWordIff | solution.hw2/src/MUDController.java:26-28 | the command is `word` iff the line is `word` or starts with `word` and a space; the argument is then the rest after that space, or "" |
| Controller.ParseLookIff | solution.hw2/src/MUDController.java:30-33 | a line selects `look` iff it is "look" or starts with "look " |
| Controller.ParseMoveIff | solution.hw2/src/MUDController.java:34-36 | a line moves in `direction` iff it is "move " + direction, or it is "move" and the direction is "" |
| Controller.ParsePickUpIff | solution.hw2/src/MUDController.java:37-39 | a line picks up `itemName` iff it is "pick up " + itemName |
| Controller.ParseBadPickIff | solution.hw2/src/MUDController.java:37-42 | a line gets the pick error iff its command is `pick` and it does not start with "pick up " |
| Controller.ParseQuitIff | solution.hw2/src/MUDController.java:50-54 | a line quits iff it is "quit" or "exit", or starts with "quit " or "exit " |
| Controller.ParseEmptyIsUnknown | solution.hw2/src/MUDController.java:55-56 | the empty line has command "" and reaches the unknown-command branch |
| Controller.ItemLines | solution.hw2/src/MUDController.java:96-98 | one line per item, and the i-th line is "- " followed by the i-th item's name |
| Controller.InventoryLines | solution.hw2/src/MUDController.java:90-99 | the display is exactly "Your inventory is empty." iff the inventory is empty; otherwise it is the header and then one "- name" line per item, in order |
| Controller.InventoryLinesAppend | solution.hw2/src/MUDController.java:96-98 | a further pick-up adds its line at the end of the display, so the display keeps pick-up order |
| Controller.TranscriptAppend | solution.hw2/src/MUDController.java:17-22 | each further turn adds the prompt and then that turn's response at the end of the printed text |
| Controller.Commands | solution.hw2/src/MUDController.java:20 | one command per input line |
| Controller.CommandsAt | solution.hw2/src/MUDController.java:20-21 | the i-th command is the parse of the i-th line once it is trimmed and lower-cased |
| Controller.LoopProgressStart | solution.hw2/src/MUDController.java:16-18 | before any line is read, the loop's bookkeeping holds whether or not the game runs |
| Controller.LoopProgressStep | solution.hw2/src/MUDController.java:18-22 | reading one more line while the game runs stops it exactly when that line's command is `quit`/`exit`, keeps "no stopping line so far" otherwise, and records that line's fixed answer |
| Controller.LoopProgressDone | solution.hw2/src/MUDController.java:18-22 | when the loop ends, a running game has read every line and seen no stopping line; a stopped game read up to and including its first stopping line, whose answer is "Goodbye!" |
| Controller.MUDController.constructor | solution.hw2/src/MUDController.java:10-14 | the controller starts with `running` true, in a world closed under its passages |
| Controller.MUDController.LookAround | solution.hw2/src/MUDController.java:60-65 | three lines: "Room: " + name, the description, and "Items here: " + the listing |
| Controller.MUDController.Move | solution.hw2/src/MUDController.java:67-76 | with a passage for the exact direction, the player moves there and sees the arrival line and the look; without one, the room is unchanged and the output is "You can't go that way!"; the inventory never changes |
| Controller.MUDController.PickUp | solution.hw2/src/MUDController.java:78-88 | on a match, the found item is appended to the inventory and deleted from exactly its position in the room; without one, nothing changes and the output is the "No item named" line; the inventory and the room together keep the same multiset of items, and the player stays in the same room |
| Controller.MUDController.CheckInventory | solution.hw2/src/MUDController.java:90-99 | the loop prints exactly the inventory display |
| Controller.MUDController.HandleInput | solution.hw2/src/MUDController.java:25-58 | `running` is cleared exactly by `quit`/`exit`; passages never change; the room changes only on `move` (to the mapped room, or not at all with "You can't go that way!"); inventory and room items change only on `pick up`, never in any room but the current one, and keep their joint multiset; `look`, `inventory`, the pick error, `help`, `quit` and the default branch print their own lines |
| Controller.MUDController.Step | solution.hw2/src/MUDController.java:20-21 | one turn hands the trimmed, lower-cased line to `handleInput` and has exactly the effects and output listed for `HandleInput`, for the command of that normalised line |
| Controller.MUDController.RunGameLoop | solution.hw2/src/MUDController.java:16-23 | the output is the banner followed by one prompt and one recorded response per line read; a running game reads up to and including the first stopping line, whose response is "Goodbye!", and stops; with no stopping line it reads every line and keeps running; a game already stopped reads nothing; every fixed-text answer is the one its command prints; passages never change |
| Bootstrap.BuildWorld | solution.hw2/src/MUDController.java:113-125 | two distinct rooms linked forward and back, the axe at the entrance, the helmet in the tunnel, and a running game with the player at the entrance |
| Bootstrap.TakeAxe | solution.hw2/src/MUDController.java:113-126 | "pick up axe" at the entrance moves the axe into the inventory and empties the entrance |
| Bootstrap.ShowAxe | solution.hw2/src/MUDController.java:113-126 | the inventory then lists the header and "- axe" |
| Bootstrap.ArriveInTunnel | solution.hw2/src/MUDController.java:113-126 | arriving in the tunnel prints its name, its description and "Items here: helmet" |
| Bootstrap.ArriveAtEntrance | solution.hw2/src/MUDController.java:113-126 | arriving back at the emptied entrance prints "Items here: No items." |
| Bootstrap.GoForward | solution.hw2/src/MUDController.java:113-126 | "move forward" takes the player to the tunnel and looks around |
| Bootstrap.GoBack | solution.hw2/src/MUDController.java:113-126 | "move back" takes the player to the entrance and looks around |
| Bootstrap.Mistakes | solution.hw2/src/MUDController.java:113-126 | taking the axe again and moving back from the entrance both fail, print their errors and change nothing |
| Bootstrap.Leave | solution.hw2/src/MUDController.java:113-126 | a blank line is an unknown command; "quit" then says goodbye and stops the game |
| Bootstrap.PickUpAxeLine | solution.hw2/src/MUDController.java:37-39 | "pick up axe" asks to pick up "axe" |
| Bootstrap.InventoryLine | solution.hw2/src/MUDController.java:44-45 | "inventory" asks for the inventory |
| Bootstrap.MoveLine | solution.hw2/src/MUDController.java:34-35 | "move " + direction asks to move in that direction |
| Bootstrap.QuitLine | solution.hw2/src/MUDController.java:50-53 | "quit" asks to stop |
| Bootstrap.Gather | solution.hw2/src/MUDController.java:113-126 | taking the axe and listing the inventory print three lines |
| Bootstrap.RoundTrip | solution.hw2/src/MUDController.java:113-126 | the way to the tunnel and back prints the two arrivals and looks |
| Bootstrap.Closing | solution.hw2/src/MUDController.java:113-126 | the two refused commands, the blank line and "quit" print their four lines and stop the game |
| Bootstrap.PlayThrough | solution.hw2/src/MUDController.java:112-127 | the responses to the eight commands of the play-through of the world that `main` builds are exactly the fifteen expected lines, and the game has stopped at the end |

## Left out

- Console I/O: `Scanner(System.in)`, `nextLine`, and `System.out.print`/`println`
  (lines 13, 17, 19 and every print). Input is a given sequence of lines. Output is
  the returned sequence of printed texts, one element per call, without newlines.
  The banner and the `"> "` prompt are elements of that sequence.
- End of input: when the lines run out while the game runs, the Java loop prints one
  more `"> "` and then `nextLine` throws `NoSuchElementException`.
  `Controller.MUDController.RunGameLoop` stops when the lines run out, without that
  last prompt, and reports how many lines it read.
- Controller.MUDController.RunGameLoop: at the level of a whole run, only the
  running flag, the stop at the first stopping line, the fixed-text answers and the
  unchanged passages are stated. The responses to `look`, `move`, `pick up` and
  `inventory` lines, and the player's room, inventory and room items after a run,
  are stated only turn by turn, by `Step`. In particular the run-level contract does
  not state that the items of all rooms and the inventory together stay the same
  multiset; each turn states it for the inventory and the current room and leaves
  the items of every other room unchanged.
- Bootstrap.PlayThrough: covers the responses to the eight commands. It calls
  `HandleInput` on lines that are already trimmed and lower-cased, so it leaves out
  the banner, the prompts and the normalisation that `RunGameLoop` adds.
- Unicode: `trim` is modelled exactly (it removes characters at or below U+0020).
  `toLowerCase` and `equalsIgnoreCase` are modelled on ASCII letters only. The
  locale-dependent and non-ASCII case mappings are not modelled.
- `HashMap` hashing and iteration order: a Dafny `map` gives the same lookups, and no
  command iterates over the passages.
- `showHelp` (lines 102-110) is fixed text. It is the constant `Controller.HelpLines`,
  and `HandleInput` proves that `help` prints it.
- `Player.name`, `Item.description`, `getName`, `getDescription`, `getCurrentRoom` and
  `getInventory` are plain field reads. The model reads the fields directly.
- Object identity of items: Java's `List.remove(Object)` compares the `Item`
  references. The model compares item values. `World.RemoveFoundItem` shows that
  both remove the element `getItem` found: every earlier element has a
  non-matching name, so it cannot be that item.
- A `null` room stored by `addConnection(direction, null)`: the program never does
  this. In the model, passages always lead to a room.
