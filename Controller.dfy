/**
 * The controller: the parse of one normalised input line into a command, the
 * actions that the commands run against the player and the rooms, and the
 * game loop that stops on `quit` or `exit`.
 */
module Controller {
  import opened Wrappers
  import opened Text
  import opened World

  // ------------------------------------------------------------ commands

  /** The branches of the command switch. */
  datatype Command =
    | Look
    | Move(direction: string)
    | PickUp(itemName: string)
    | BadPick
    | ShowInventory
    | Help
    | Quit
    | Unknown

  /**
   * The command of a line: the text before its first space selects the branch
   * and the text after that space (or "" without a space) is the argument;
   * `pick` further needs the argument to start with "up ".
   */
  function Parse(line: string): Command
  {
    var (command, argument) := SplitAtFirstSpace(line);
    if command == "look" then Look
    else if command == "move" then Move(argument)
    else if command == "pick" then
      if StartsWith(argument, "up ") then PickUp(argument[3..]) else BadPick
    else if command == "inventory" then ShowInventory
    else if command == "help" then Help
    else if IsQuitWord(command) then Quit
    else Unknown
  }

  /** A line has `word` as its command exactly when it is `word` or starts with `word` and a space. */
  lemma FirstWordIff(line: string, word: string)
    requires ' ' !in word
    ensures SplitAtFirstSpace(line).0 == word <==> line == word || StartsWith(line, word + " ")
    ensures StartsWith(line, word + " ") ==> SplitAtFirstSpace(line) == (word, line[|word| + 1..])
    ensures line == word ==> SplitAtFirstSpace(line) == (word, "")
  {
    SplitAtFirstSpaceWord(word, "");
    if StartsWith(line, word + " ") {
      assert line == word + " " + line[|word| + 1..];
      SplitAtFirstSpaceWord(word, line[|word| + 1..]);
    }
    SplitAtFirstSpaceSpec(line);
    var r := SplitAtFirstSpace(line);
    if r.0 == word && ' ' in line {
      assert line == word + " " + r.1;
      assert line[..|word + " "|] == word + " ";
    }
  }

  lemma ParseLookIff(line: string)
    ensures Parse(line) == Look <==> line == "look" || StartsWith(line, "look ")
  {
    FirstWordIff(line, "look");
  }

  /** `move` takes everything after its space as the direction, or "" when alone. */
  lemma ParseMoveIff(line: string, direction: string)
    ensures Parse(line) == Move(direction) <==>
            line == "move " + direction || (line == "move" && direction == "")
  {
    FirstWordIff(line, "move");
    if line == "move " + direction {
      assert StartsWith(line, "move ");
      assert line[5..] == direction;
    }
  }

  /** A pick-up names the text after "pick up ". */
  lemma ParsePickUpIff(line: string, itemName: string)
    ensures Parse(line) == PickUp(itemName) <==> line == "pick up " + itemName
  {
    FirstWordIff(line, "pick");
    if line == "pick up " + itemName {
      assert StartsWith(line, "pick ");
      var argument := line[5..];
      assert argument == "up " + itemName;
      assert StartsWith(argument, "up ") && argument[3..] == itemName;
    }
    if Parse(line) == PickUp(itemName) {
      SplitAtFirstSpaceSpec(line);
      var (command, argument) := SplitAtFirstSpace(line);
      assert command == "pick" && StartsWith(argument, "up ");
      assert line == "pick " + argument;
      assert argument == "up " + itemName;
      assert line == "pick up " + itemName;
    }
  }

  /** `pick` without "up " after it is refused, whatever follows. */
  lemma ParseBadPickIff(line: string)
    ensures Parse(line) == BadPick <==>
            (line == "pick" || StartsWith(line, "pick ")) && !StartsWith(line, "pick up ")
  {
    FirstWordIff(line, "pick");
    if StartsWith(line, "pick ") {
      var argument := line[5..];
      assert StartsWith(line, "pick up ") <==> StartsWith(argument, "up ") by {
        if StartsWith(argument, "up ") {
          assert line[..8] == line[..5] + argument[..3];
        }
        if StartsWith(line, "pick up ") {
          assert argument[..3] == line[5..8];
        }
      }
    }
  }

  /** `quit` and `exit` stop the game, with or without anything after a space. */
  lemma ParseQuitIff(line: string)
    ensures Parse(line) == Quit <==>
            line == "quit" || line == "exit" || StartsWith(line, "quit ") || StartsWith(line, "exit ")
  {
    FirstWordIff(line, "quit");
    FirstWordIff(line, "exit");
    assert Parse(line) == Quit <==> IsQuitWord(SplitAtFirstSpace(line).0);
  }

  /** An empty line is an unknown command. */
  lemma ParseEmptyIsUnknown()
    ensures Parse("") == Unknown
  {
    SplitAtFirstSpaceSpec("");
  }

  // ------------------------------------------------------------ output

  const HelpLines: seq<string> := [
    "Available commands:",
    "look - Describe the current room.",
    "move <direction> - Move in a direction (forward, back, left, right).",
    "pick up <item> - Pick up an item.",
    "inventory - Show items in your inventory.",
    "help - Show this help menu.",
    "quit / exit - End the game."
  ]

  const Goodbye: string := "Goodbye!"

  const Welcome: string := "Welcome to the game! Type 'help' for commands."

  /**
   * The lines of the branches whose output does not depend on the world:
   * the `pick` error, the help text, the farewell and the unknown command.
   */
  function FixedResponse(command: Command): Option<seq<string>>
  {
    match command
    case BadPick => Some(["Invalid command! Use 'pick up <item>'."])
    case Help => Some(HelpLines)
    case Quit => Some([Goodbye])
    case Unknown => Some(["Unknown command! Type 'help' for a list of commands."])
    case _ => None
  }

  /** What the loop has printed: the banner, then for each line read a prompt and the response. */
  function Transcript(responses: seq<seq<string>>): seq<string>
  {
    if responses == [] then [Welcome]
    else Transcript(responses[..|responses| - 1]) + ["> "] + responses[|responses| - 1]
  }

  /** One more line read adds its prompt and its response at the end. */
  lemma TranscriptAppend(responses: seq<seq<string>>, response: seq<string>)
    ensures Transcript(responses + [response]) == Transcript(responses) + ["> "] + response
  {
    assert (responses + [response])[..|responses|] == responses;
  }

  /** What `look` prints about a room: its name, its description and its items. */
  function LookLines(room: Room): seq<string>
    reads room
  {
    ["Room: " + room.name, room.description, "Items here: " + ListItemsOf(room.items)]
  }

  /** One "- name" line per item, in list order. */
  function ItemLines(items: seq<Item>): (r: seq<string>)
    ensures |r| == |items|
    ensures forall i :: 0 <= i < |items| ==> r[i] == "- " + items[i].name
  {
    if items == [] then [] else ["- " + items[0].name] + ItemLines(items[1..])
  }

  /** What `inventory` prints. */
  function InventoryLines(inventory: seq<Item>): (r: seq<string>)
    ensures r == ["Your inventory is empty."] <==> inventory == []
    ensures inventory != [] ==> |r| == |inventory| + 1 && r[0] == "You are carrying: "
    ensures forall i :: 0 <= i < |inventory| ==> r[i + 1] == "- " + inventory[i].name
  {
    if inventory == [] then ["Your inventory is empty."]
    else ["You are carrying: "] + ItemLines(inventory)
  }

  /** A further pick-up adds its line at the end: the display keeps pick-up order. */
  lemma InventoryLinesAppend(inventory: seq<Item>, item: Item)
    requires inventory != []
    ensures InventoryLines(inventory + [item]) == InventoryLines(inventory) + ["- " + item.name]
  {
    var a := InventoryLines(inventory + [item]);
    var b := InventoryLines(inventory) + ["- " + item.name];
    assert |a| == |b|;
    forall i | 0 <= i < |a| ensures a[i] == b[i] {
      if 0 < i <= |inventory| {
        assert (inventory + [item])[i - 1] == inventory[i - 1];
      } else if i == |inventory| + 1 {
        assert (inventory + [item])[i - 1] == item;
      }
    }
  }

  // ------------------------------------------------------------ the loop

  /** The game loop hands `handleInput` the trimmed, lower-cased line. */
  function Normalize(line: string): string
  {
    ToLower(Trim(line))
  }

  /** The command words of the branch that stops the game. */
  predicate IsQuitWord(command: string)
  {
    command == "quit" || command == "exit"
  }

  /** The command that each input line gives once it is trimmed and lower-cased. */
  function Commands(lines: seq<string>): (r: seq<Command>)
    ensures |r| == |lines|
  {
    if lines == [] then [] else [Parse(Normalize(lines[0]))] + Commands(lines[1..])
  }

  /** The i-th command is the parse of the i-th line, normalised. */
  lemma {:induction false} CommandsAt(lines: seq<string>, i: nat)
    requires i < |lines|
    ensures Commands(lines)[i] == Parse(Normalize(lines[i]))
  {
    if i > 0 {
      CommandsAt(lines[1..], i - 1);
    }
  }

  /**
   * What the loop knows after reading `|responses|` of the lines whose
   * commands are `commands`: a game that was over reads nothing, a game still
   * running has seen no `Quit`, a game that stopped stopped at the first
   * `Quit`, and every command with a fixed answer got that answer.
   */
  ghost predicate LoopProgress(commands: seq<Command>, responses: seq<seq<string>>, wasRunning: bool, running: bool)
  {
    |responses| <= |commands| &&
    (!wasRunning ==> responses == [] && !running) &&
    (wasRunning && running ==> forall j :: 0 <= j < |responses| ==> commands[j] != Quit) &&
    (wasRunning && !running ==>
       |responses| > 0 && commands[|responses| - 1] == Quit &&
       forall j :: 0 <= j < |responses| - 1 ==> commands[j] != Quit) &&
    (forall i :: 0 <= i < |responses| && FixedResponse(commands[i]).Some? ==>
       responses[i] == FixedResponse(commands[i]).value)
  }

  /** The loop has read nothing yet. */
  lemma LoopProgressStart(commands: seq<Command>, running: bool)
    ensures LoopProgress(commands, [], running, running)
  {
  }

  /** One more line read while the game runs: it stops the game exactly when it is `Quit`. */
  lemma LoopProgressStep(commands: seq<Command>, responses: seq<seq<string>>, response: seq<string>,
                         wasRunning: bool, running: bool)
    requires LoopProgress(commands, responses, wasRunning, true)
    requires |responses| < |commands|
    requires running == (commands[|responses|] != Quit)
    requires FixedResponse(commands[|responses|]).Some? ==> response == FixedResponse(commands[|responses|]).value
    ensures LoopProgress(commands, responses + [response], wasRunning, running)
  {
    var n := |responses|;
    var next := responses + [response];
    assert forall i :: 0 <= i < n ==> next[i] == responses[i];
  }

  /**
   * When the loop ends, because the game stopped or the lines ran out, a
   * running game has read every line and a stopped one stopped at its first
   * `Quit`, whose answer is the farewell.
   */
  lemma LoopProgressDone(commands: seq<Command>, responses: seq<seq<string>>, wasRunning: bool, running: bool)
    requires LoopProgress(commands, responses, wasRunning, running)
    requires !running || |responses| == |commands|
    ensures !wasRunning ==> responses == [] && !running
    ensures wasRunning && running ==>
              |responses| == |commands| && forall j :: 0 <= j < |responses| ==> commands[j] != Quit
    ensures wasRunning && !running ==>
              |responses| > 0 && commands[|responses| - 1] == Quit && responses[|responses| - 1] == [Goodbye] &&
              forall j :: 0 <= j < |responses| - 1 ==> commands[j] != Quit
    ensures forall i :: 0 <= i < |responses| && FixedResponse(commands[i]).Some? ==>
              responses[i] == FixedResponse(commands[i]).value
  {
    if wasRunning && !running {
      var last := commands[|responses| - 1];
      assert last == Quit;
      assert FixedResponse(last) == Some([Goodbye]);
    }
  }

  class MUDController {
    const player: Player
    var running: bool
    /** The rooms of the world, closed under their passages. */
    ghost const rooms: set<Room>

    /** The player stands in a room of the world and every passage leads to one. */
    ghost predicate Valid()
      reads this, player, rooms
    {
      player.currentRoom in rooms &&
      forall r :: r in rooms ==> r.connections.Values <= rooms
    }

    /**
     * What a command does to the world and prints, apart from stopping the
     * game: `move` changes only the room, `pick up` only the inventory and
     * the current room's items, and every other command changes neither.
     */
    twostate predicate Handled(command: Command, out: seq<string>)
      reads this, player, player.currentRoom, rooms
    {
      (!command.Move? ==> player.currentRoom == old(player.currentRoom)) &&
      (!command.PickUp? ==>
         player.inventory == old(player.inventory) &&
         forall r :: r in rooms ==> r.items == old(r.items)) &&
      (command.Move? && command.direction in old(player.currentRoom.connections) ==>
         player.currentRoom == old(player.currentRoom.connections[command.direction]) &&
         out == ["You moved to: " + player.currentRoom.name] + LookLines(player.currentRoom)) &&
      (command.Move? && command.direction !in old(player.currentRoom.connections) ==>
         player.currentRoom == old(player.currentRoom) && out == ["You can't go that way!"]) &&
      (forall r :: r in rooms && r != old(player.currentRoom) ==> r.items == old(r.items)) &&
      (command.PickUp? ==>
         multiset(player.inventory) + multiset(player.currentRoom.items) ==
         old(multiset(player.inventory) + multiset(player.currentRoom.items))) &&
      (command.PickUp? && FindFirst(old(player.currentRoom.items), command.itemName).Some? ==>
         var k := FindFirst(old(player.currentRoom.items), command.itemName).value;
         player.inventory == old(player.inventory) + [old(player.currentRoom.items[k])] &&
         player.currentRoom.items == old(player.currentRoom.items[..k] + player.currentRoom.items[k + 1..]) &&
         out == ["You picked up " + command.itemName + "."]) &&
      (command.PickUp? && FindFirst(old(player.currentRoom.items), command.itemName).None? ==>
         player.inventory == old(player.inventory) &&
         player.currentRoom.items == old(player.currentRoom.items) &&
         out == ["No item named " + command.itemName + " here!"]) &&
      (command == Look ==> out == LookLines(player.currentRoom)) &&
      (command == ShowInventory ==> out == InventoryLines(player.inventory))
    }

    constructor (player: Player, ghost rooms: set<Room>)
      requires player.currentRoom in rooms
      requires forall r :: r in rooms ==> r.connections.Values <= rooms
      ensures Valid() && this.player == player && this.rooms == rooms
      ensures running
    {
      this.player := player;
      this.rooms := rooms;
      running := true;
    }

    method LookAround() returns (out: seq<string>)
      ensures |out| == 3 && out == LookLines(player.currentRoom)
    {
      var room := player.currentRoom;
      out := ["Room: " + room.name];
      out := out + [room.description];
      out := out + ["Items here: " + ListItemsOf(room.items)];
    }

    method Move(direction: string) returns (out: seq<string>)
      requires Valid()
      modifies player
      ensures Valid()
      ensures player.inventory == old(player.inventory)
      ensures direction in old(player.currentRoom.connections) ==>
                player.currentRoom == old(player.currentRoom.connections[direction]) &&
                out == ["You moved to: " + player.currentRoom.name] + LookLines(player.currentRoom)
      ensures direction !in old(player.currentRoom.connections) ==>
                player.currentRoom == old(player.currentRoom) && out == ["You can't go that way!"]
    {
      match player.currentRoom.GetConnection(direction)
      case Some(newRoom) =>
        assert newRoom in player.currentRoom.connections.Values;
        player.SetCurrentRoom(newRoom);
        out := ["You moved to: " + newRoom.name];
        var look := LookAround();
        out := out + look;
      case None =>
        out := ["You can't go that way!"];
    }

    method PickUp(itemName: string) returns (out: seq<string>)
      requires Valid()
      modifies player, player.currentRoom
      ensures Valid()
      ensures player.currentRoom == old(player.currentRoom)
      ensures player.currentRoom.connections == old(player.currentRoom.connections)
      ensures multiset(player.inventory) + multiset(player.currentRoom.items) ==
                old(multiset(player.inventory) + multiset(player.currentRoom.items))
      ensures FindFirst(old(player.currentRoom.items), itemName).Some? ==>
                var k := FindFirst(old(player.currentRoom.items), itemName).value;
                player.inventory == old(player.inventory) + [old(player.currentRoom.items[k])] &&
                player.currentRoom.items == old(player.currentRoom.items[..k] + player.currentRoom.items[k + 1..]) &&
                out == ["You picked up " + itemName + "."]
      ensures FindFirst(old(player.currentRoom.items), itemName).None? ==>
                player.inventory == old(player.inventory) &&
                player.currentRoom.items == old(player.currentRoom.items) &&
                out == ["No item named " + itemName + " here!"]
    {
      var room := player.currentRoom;
      match room.GetItem(itemName)
      case Some(item) =>
        ghost var k := FindFirst(room.items, itemName).value;
        RemoveFoundItem(room.items, itemName, k);
        player.AddItem(item);
        room.RemoveItem(item);
        out := ["You picked up " + itemName + "."];
      case None =>
        out := ["No item named " + itemName + " here!"];
    }

    method CheckInventory() returns (out: seq<string>)
      ensures out == InventoryLines(player.inventory)
    {
      var inventory := player.inventory;
      if inventory == [] {
        out := ["Your inventory is empty."];
      } else {
        out := ["You are carrying: "];
        var i := 0;
        while i < |inventory|
          invariant 0 <= i <= |inventory|
          invariant |out| == i + 1 && out[0] == "You are carrying: "
          invariant forall j :: 0 <= j < i ==> out[j + 1] == "- " + inventory[j].name
        {
          out := out + ["- " + inventory[i].name];
          i := i + 1;
        }
        assert forall j :: 0 <= j < |out| ==> out[j] == InventoryLines(inventory)[j];
      }
    }

    /** One line of input, already trimmed and lower-cased, dispatched on its command. */
    method HandleInput(input: string) returns (out: seq<string>)
      requires Valid()
      modifies this, player, player.currentRoom
      ensures Valid()
      ensures running == (old(running) && Parse(input) != Quit)
      ensures forall r :: r in rooms ==> r.connections == old(r.connections)
      ensures Handled(Parse(input), out)
      ensures FixedResponse(Parse(input)).Some? ==> out == FixedResponse(Parse(input)).value
    {
      match Parse(input)
      case Look =>
        out := LookAround();
      case Move(direction) =>
        out := this.Move(direction);
      case PickUp(itemName) =>
        out := this.PickUp(itemName);
      case BadPick =>
        out := ["Invalid command! Use 'pick up <item>'."];
      case ShowInventory =>
        out := CheckInventory();
      case Help =>
        out := HelpLines;
      case Quit =>
        running := false;
        out := ["Goodbye!"];
      case Unknown =>
        out := ["Unknown command! Type 'help' for a list of commands."];
    }

    /**
     * One turn of the loop: the line is trimmed and lower-cased and handed to
     * `HandleInput`, with the effects and output that its command has there.
     */
    method Step(line: string) returns (response: seq<string>)
      requires Valid()
      modifies this, player, rooms
      ensures Valid()
      ensures running == (old(running) && Parse(Normalize(line)) != Quit)
      ensures forall r :: r in rooms ==> r.connections == old(r.connections)
      ensures Handled(Parse(Normalize(line)), response)
      ensures FixedResponse(Parse(Normalize(line))).Some? ==>
                response == FixedResponse(Parse(Normalize(line))).value
    {
      response := HandleInput(Normalize(line));
    }

    /**
     * The game loop over a given sequence of input lines: the banner, then a
     * prompt and the response for each line, until a line ends the game or
     * the lines run out. `responses` holds the response to each line read.
     */
    method RunGameLoop(lines: seq<string>) returns (out: seq<string>, consumed: nat, ghost responses: seq<seq<string>>)
      requires Valid()
      modifies this, player, rooms
      ensures Valid()
      ensures consumed <= |lines| && |responses| == consumed
      ensures out == Transcript(responses)
      ensures !old(running) ==> consumed == 0 && !running
      ensures old(running) && running ==>
                consumed == |lines| && forall j :: 0 <= j < consumed ==> Commands(lines)[j] != Quit
      ensures old(running) && !running ==>
                consumed > 0 && Commands(lines)[consumed - 1] == Quit && responses[consumed - 1] == [Goodbye] &&
                forall j :: 0 <= j < consumed - 1 ==> Commands(lines)[j] != Quit
      ensures forall i :: 0 <= i < consumed && FixedResponse(Commands(lines)[i]).Some? ==>
                responses[i] == FixedResponse(Commands(lines)[i]).value
      ensures forall r :: r in rooms ==> r.connections == old(r.connections)
    {
      ghost var commands := Commands(lines);
      out := [Welcome];
      consumed := 0;
      responses := [];
      ghost var wasRunning := running;
      LoopProgressStart(commands, running);
      while running && consumed < |lines|
        invariant Valid()
        invariant |responses| == consumed
        invariant out == Transcript(responses)
        invariant LoopProgress(commands, responses, wasRunning, running)
        invariant forall r :: r in rooms ==> r.connections == old(r.connections)
        decreases |lines| - consumed
      {
        var response := Step(lines[consumed]);
        CommandsAt(lines, consumed);
        LoopProgressStep(commands, responses, response, wasRunning, running);
        TranscriptAppend(responses, response);
        out := out + ["> "] + response;
        responses := responses + [response];
        consumed := consumed + 1;
      }
      LoopProgressDone(commands, responses, wasRunning, running);
    }
  }
}
