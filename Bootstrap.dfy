/**
 * The world that the program's entry point builds, and a play-through of it:
 * take the axe, look at the inventory, walk forward and back, and quit.
 */
module Bootstrap {
  import opened Wrappers
  import opened Text
  import opened World
  import opened Controller

  const Axe := Item("axe", "A heavy battle axe with a sharp edge.")
  const Helmet := Item("helmet", "A reinforced iron helmet, slightly dented.")

  /** The fixed part of the world: two distinct rooms, their texts and their passages. */
  ghost predicate Built(c: MUDController, entrance: Room, tunnel: Room)
    reads c, c.player, entrance, tunnel
  {
    c.rooms == {entrance, tunnel} && entrance != tunnel && c.Valid() &&
    entrance.name == "Cave Entrance" && tunnel.name == "Dark Tunnel" &&
    entrance.description == "A gloomy entrance to an underground cave." &&
    tunnel.description == "A narrow tunnel with eerie echoes." &&
    entrance.connections == map["forward" := tunnel] &&
    tunnel.connections == map["back" := entrance]
  }

  /** The changing part: where the player is, what the player carries and what lies in each room. */
  ghost predicate At(c: MUDController, entrance: Room, tunnel: Room, here: Room,
                     inventory: seq<Item>, atEntrance: seq<Item>, inTunnel: seq<Item>)
    reads c, c.player, entrance, tunnel
  {
    Built(c, entrance, tunnel) && c.running && c.player.currentRoom == here &&
    c.player.inventory == inventory && entrance.items == atEntrance && tunnel.items == inTunnel
  }

  /** The two rooms, wired both ways, each with one item, and a player at the entrance. */
  method BuildWorld() returns (c: MUDController, entrance: Room, tunnel: Room)
    ensures At(c, entrance, tunnel, entrance, [], [Axe], [Helmet])
    ensures fresh(c) && fresh(c.player) && fresh(entrance) && fresh(tunnel)
  {
    entrance := new Room("Cave Entrance", "A gloomy entrance to an underground cave.");
    tunnel := new Room("Dark Tunnel", "A narrow tunnel with eerie echoes.");
    entrance.AddConnection("forward", tunnel);
    tunnel.AddConnection("back", entrance);
    entrance.AddItem(Axe);
    tunnel.AddItem(Helmet);
    var player := new Player("Warrior", entrance);
    c := new MUDController(player, {entrance, tunnel});
  }

  method TakeAxe(c: MUDController, entrance: Room, tunnel: Room, line: string) returns (out: seq<string>)
    requires Parse(line) == PickUp("axe")
    requires At(c, entrance, tunnel, entrance, [], [Axe], [Helmet])
    modifies c, c.player, entrance, tunnel
    ensures At(c, entrance, tunnel, entrance, [Axe], [], [Helmet])
    ensures out == ["You picked up axe."]
  {
    EqualsIgnoreCaseReflexive("axe");
    assert FindFirst(entrance.items, "axe") == Some(0);
    assert "You picked up " + "axe" + "." == "You picked up axe.";
    out := c.HandleInput(line);
  }

  method ShowAxe(c: MUDController, entrance: Room, tunnel: Room, line: string) returns (out: seq<string>)
    requires Parse(line) == ShowInventory
    requires At(c, entrance, tunnel, entrance, [Axe], [], [Helmet])
    modifies c, c.player, entrance, tunnel
    ensures At(c, entrance, tunnel, entrance, [Axe], [], [Helmet])
    ensures out == ["You are carrying: ", "- axe"]
  {
    assert "- " + Axe.name == "- axe";
    out := c.HandleInput(line);
  }

  /** What arriving in the tunnel shows while the helmet lies there. */
  lemma ArriveInTunnel(tunnel: Room)
    requires tunnel.name == "Dark Tunnel" && tunnel.description == "A narrow tunnel with eerie echoes."
    requires tunnel.items == [Helmet]
    ensures ["You moved to: " + tunnel.name] + LookLines(tunnel) ==
            ["You moved to: Dark Tunnel",
             "Room: Dark Tunnel", "A narrow tunnel with eerie echoes.", "Items here: helmet"]
  {
    ListItemsSingle(Helmet);
    assert "Items here: " + "helmet" == "Items here: helmet";
    assert "Room: " + "Dark Tunnel" == "Room: Dark Tunnel";
    assert "You moved to: " + "Dark Tunnel" == "You moved to: Dark Tunnel";
    assert LookLines(tunnel) == ["Room: Dark Tunnel", "A narrow tunnel with eerie echoes.", "Items here: helmet"];
  }

  /** What arriving at the emptied entrance shows. */
  lemma ArriveAtEntrance(entrance: Room)
    requires entrance.name == "Cave Entrance"
    requires entrance.description == "A gloomy entrance to an underground cave."
    requires entrance.items == []
    ensures ["You moved to: " + entrance.name] + LookLines(entrance) ==
            ["You moved to: Cave Entrance",
             "Room: Cave Entrance", "A gloomy entrance to an underground cave.", "Items here: No items."]
  {
    assert ListItemsOf(entrance.items) == "No items.";
    assert "Items here: " + "No items." == "Items here: No items.";
    assert "Room: " + "Cave Entrance" == "Room: Cave Entrance";
    assert "You moved to: " + "Cave Entrance" == "You moved to: Cave Entrance";
    assert LookLines(entrance) ==
      ["Room: Cave Entrance", "A gloomy entrance to an underground cave.", "Items here: No items."];
  }

  method GoForward(c: MUDController, entrance: Room, tunnel: Room, line: string) returns (out: seq<string>)
    requires Parse(line) == Move("forward")
    requires At(c, entrance, tunnel, entrance, [Axe], [], [Helmet])
    modifies c, c.player, entrance, tunnel
    ensures At(c, entrance, tunnel, tunnel, [Axe], [], [Helmet])
    ensures out == ["You moved to: " + tunnel.name] + LookLines(tunnel)
  {
    assert c.player.currentRoom.connections["forward"] == tunnel;
    out := c.HandleInput(line);
  }

  method GoBack(c: MUDController, entrance: Room, tunnel: Room, line: string) returns (out: seq<string>)
    requires Parse(line) == Move("back")
    requires At(c, entrance, tunnel, tunnel, [Axe], [], [Helmet])
    modifies c, c.player, entrance, tunnel
    ensures At(c, entrance, tunnel, entrance, [Axe], [], [Helmet])
    ensures out == ["You moved to: " + entrance.name] + LookLines(entrance)
  {
    assert c.player.currentRoom.connections["back"] == entrance;
    out := c.HandleInput(line);
  }

  /** Taking the axe again and walking where no passage leads both fail and change nothing. */
  method Mistakes(c: MUDController, entrance: Room, tunnel: Room, take: string, walk: string)
    returns (out: seq<string>)
    requires Parse(take) == PickUp("axe") && Parse(walk) == Move("back")
    requires At(c, entrance, tunnel, entrance, [Axe], [], [Helmet])
    modifies c, c.player, entrance, tunnel
    ensures At(c, entrance, tunnel, entrance, [Axe], [], [Helmet])
    ensures out == ["No item named axe here!", "You can't go that way!"]
  {
    assert FindFirst(entrance.items, "axe") == None;
    assert "No item named " + "axe" + " here!" == "No item named axe here!";
    var again := c.HandleInput(take);
    assert "back" !in entrance.connections;
    var blocked := c.HandleInput(walk);
    out := again + blocked;
  }

  /** An empty line is unknown and changes nothing; `quit` stops the game. */
  method Leave(c: MUDController, entrance: Room, tunnel: Room, blank: string, quit: string)
    returns (out: seq<string>)
    requires Parse(blank) == Unknown && Parse(quit) == Quit
    requires At(c, entrance, tunnel, entrance, [Axe], [], [Helmet])
    modifies c, c.player, entrance, tunnel
    ensures Built(c, entrance, tunnel) && !c.running
    ensures c.player.currentRoom == entrance && c.player.inventory == [Axe]
    ensures out == ["Unknown command! Type 'help' for a list of commands.", "Goodbye!"]
  {
    var empty := c.HandleInput(blank);
    var bye := c.HandleInput(quit);
    out := empty + bye;
  }

  /** The input line `pick up axe` asks for the axe. */
  lemma PickUpAxeLine(line: string)
    requires line == "pick up axe"
    ensures Parse(line) == PickUp("axe")
  {
    ParsePickUpIff(line, "axe");
  }

  /** The input line `inventory` asks for the inventory. */
  lemma InventoryLine(line: string)
    requires line == "inventory"
    ensures Parse(line) == ShowInventory
  {
    FirstWordIff(line, "inventory");
  }

  /** The input line `move <direction>` asks to walk that way. */
  lemma MoveLine(line: string, direction: string)
    requires line == "move " + direction
    ensures Parse(line) == Move(direction)
  {
    ParseMoveIff(line, direction);
  }

  /** The input line `quit` asks to stop. */
  lemma QuitLine(line: string)
    requires line == "quit"
    ensures Parse(line) == Quit
  {
    ParseQuitIff(line);
  }

  /** Taking the axe, then listing the inventory. */
  method Gather(c: MUDController, entrance: Room, tunnel: Room, takeLine: string, showLine: string)
    returns (out: seq<string>)
    requires Parse(takeLine) == PickUp("axe") && Parse(showLine) == ShowInventory
    requires At(c, entrance, tunnel, entrance, [], [Axe], [Helmet])
    modifies c, c.player, entrance, tunnel
    ensures At(c, entrance, tunnel, entrance, [Axe], [], [Helmet])
    ensures out == ["You picked up axe.", "You are carrying: ", "- axe"]
  {
    var taken := TakeAxe(c, entrance, tunnel, takeLine);
    var shown := ShowAxe(c, entrance, tunnel, showLine);
    out := taken + shown;
  }

  /** Walking to the tunnel and back, each arrival followed by a look around. */
  method RoundTrip(c: MUDController, entrance: Room, tunnel: Room, forwardLine: string, backLine: string)
    returns (out: seq<string>)
    requires Parse(forwardLine) == Move("forward") && Parse(backLine) == Move("back")
    requires At(c, entrance, tunnel, entrance, [Axe], [], [Helmet])
    modifies c, c.player, entrance, tunnel
    ensures At(c, entrance, tunnel, entrance, [Axe], [], [Helmet])
    ensures out == [
      "You moved to: Dark Tunnel",
      "Room: Dark Tunnel", "A narrow tunnel with eerie echoes.", "Items here: helmet",
      "You moved to: Cave Entrance",
      "Room: Cave Entrance", "A gloomy entrance to an underground cave.", "Items here: No items."
    ]
  {
    var forward := GoForward(c, entrance, tunnel, forwardLine);
    ArriveInTunnel(tunnel);
    var back := GoBack(c, entrance, tunnel, backLine);
    ArriveAtEntrance(entrance);
    out := forward + back;
  }

  /** The two refused commands, the blank line and `quit`. */
  method Closing(c: MUDController, entrance: Room, tunnel: Room,
                 takeLine: string, backLine: string, blankLine: string, quitLine: string)
    returns (out: seq<string>)
    requires Parse(takeLine) == PickUp("axe") && Parse(backLine) == Move("back")
    requires Parse(blankLine) == Unknown && Parse(quitLine) == Quit
    requires At(c, entrance, tunnel, entrance, [Axe], [], [Helmet])
    modifies c, c.player, entrance, tunnel
    ensures !c.running
    ensures out == [
      "No item named axe here!",
      "You can't go that way!",
      "Unknown command! Type 'help' for a list of commands.",
      "Goodbye!"
    ]
  {
    var mistakes := Mistakes(c, entrance, tunnel, takeLine, backLine);
    var bye := Leave(c, entrance, tunnel, blankLine, quitLine);
    out := mistakes + bye;
  }

  /** The transcript of the play-through, and whether the game still runs at its end. */
  method PlayThrough(takeLine: string, showLine: string, forwardLine: string, backLine: string,
                     blankLine: string, quitLine: string)
    returns (transcript: seq<string>, running: bool)
    requires Parse(takeLine) == PickUp("axe") && Parse(showLine) == ShowInventory
    requires Parse(forwardLine) == Move("forward") && Parse(backLine) == Move("back")
    requires Parse(blankLine) == Unknown && Parse(quitLine) == Quit
    ensures transcript == [
      "You picked up axe.", "You are carrying: ", "- axe"
    ] + [
      "You moved to: Dark Tunnel",
      "Room: Dark Tunnel", "A narrow tunnel with eerie echoes.", "Items here: helmet",
      "You moved to: Cave Entrance",
      "Room: Cave Entrance", "A gloomy entrance to an underground cave.", "Items here: No items."
    ] + [
      "No item named axe here!",
      "You can't go that way!",
      "Unknown command! Type 'help' for a list of commands.",
      "Goodbye!"
    ]
    ensures !running
  {
    var c, entrance, tunnel := BuildWorld();
    var gathered := Gather(c, entrance, tunnel, takeLine, showLine);
    var trip := RoundTrip(c, entrance, tunnel, forwardLine, backLine);
    var closing := Closing(c, entrance, tunnel, takeLine, backLine, blankLine, quitLine);
    transcript := gathered + trip + closing;
    running := c.running;
  }
}
