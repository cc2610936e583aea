/** Icon assignment and the human players (main.py:18-47). */
module Players {
  import opened Wrappers
  import opened Marks
  import opened Text

  /** The icon a reply names once upper-cased (main.py:28-34); any other reply names none. */
  function IconOfReply(reply: string): Option<Icon>
  {
    if Upper(reply) == "X" then Some(X) else if Upper(reply) == "O" then Some(O) else None
  }

  /** Exactly "x", "X", "o" and "O" are accepted, each for the icon it spells. */
  lemma ReplyNamesIcon(reply: string)
    ensures IconOfReply(reply) == Some(X) <==> reply == "x" || reply == "X"
    ensures IconOfReply(reply) == Some(O) <==> reply == "o" || reply == "O"
    ensures IconOfReply(reply) == None <==> reply !in {"x", "X", "o", "O"}
  {
    UpperIsLetter(reply, 'X');
    UpperIsLetter(reply, 'O');
  }

  /** Position of the first reply that names an icon, or |replies| when none does. */
  function FirstIconReply(replies: seq<string>): (k: nat)
    ensures k <= |replies|
    ensures forall j :: 0 <= j < k ==> IconOfReply(replies[j]) == None
    ensures k < |replies| ==> IconOfReply(replies[k]) != None
  {
    if replies == [] then 0
    else if IconOfReply(replies[0]) != None then 0
    else 1 + FirstIconReply(replies[1..])
  }

  /** The icon the assignment loop settles on, given the two flags as they stand and the replies
      still to be typed: the first reply naming an icon when both are free, X when only O is taken,
      and O otherwise (main.py:26-42). None: the replies run out first, where the program keeps
      waiting for input. */
  function AssignedIcon(xTaken: bool, oTaken: bool, replies: seq<string>): Option<Icon>
  {
    if !xTaken && !oTaken then
      var k := FirstIconReply(replies);
      if k < |replies| then IconOfReply(replies[k]) else None
    else if !xTaken then Some(X)
    else Some(O)
  }

  /** How many replies the assignment loop reads: up to and including the first that names an
      icon when both flags are clear, and none otherwise. */
  function RepliesRead(xTaken: bool, oTaken: bool, replies: seq<string>): nat
  {
    if !xTaken && !oTaken then
      var k := FirstIconReply(replies);
      if k < |replies| then k + 1 else |replies|
    else 0
  }

  /** With both icons free, the loop ends exactly when some reply names an icon. */
  lemma FreeChoiceNeedsAnIconReply(replies: seq<string>)
    ensures AssignedIcon(false, false, replies) != None <==>
            exists j :: 0 <= j < |replies| && IconOfReply(replies[j]) != None
  {
    var k := FirstIconReply(replies);
    if k == |replies| {
      assert forall j :: 0 <= j < |replies| ==> IconOfReply(replies[j]) == None;
    }
  }

  /** Once the first player holds an icon, the second player is given the other one, without
      reading any reply (main.py:35-42). */
  lemma SecondPlayerGetsTheOtherIcon(first: seq<string>, second: seq<string>)
    requires AssignedIcon(false, false, first) != None
    ensures var a := AssignedIcon(false, false, first).value;
            && AssignedIcon(a == X, a == O, second) == Some(Other(a))
            && RepliesRead(a == X, a == O, second) == 0
  {
  }

  /** The session-wide flags X_TAKEN and O_TAKEN (main.py:18-19). */
  class IconRegistry {
    var xTaken: bool
    var oTaken: bool

    /** Both flags start clear. */
    constructor ()
      ensures !xTaken && !oTaken
    {
      xTaken, oTaken := false, false;
    }

    /** The loop of `Player.__init__` that settles the icon and raises its flag (main.py:24-42).
        `used` is how many replies it read. */
    method Assign(replies: seq<string>) returns (icon: Option<Icon>, used: nat)
      modifies this
      ensures icon == AssignedIcon(old(xTaken), old(oTaken), replies)
      ensures used == RepliesRead(old(xTaken), old(oTaken), replies)
      ensures xTaken == (old(xTaken) || icon == Some(X))
      ensures oTaken == (old(oTaken) || icon == Some(O))
    {
      var iconSet := false;
      icon, used := None, 0;
      while !iconSet
        invariant used <= |replies|
        invariant !iconSet ==> icon == None && xTaken == old(xTaken) && oTaken == old(oTaken)
        invariant !iconSet ==> forall j :: 0 <= j < used ==> IconOfReply(replies[j]) == None
        invariant !iconSet && used > 0 ==> !xTaken && !oTaken
        invariant iconSet ==> icon == AssignedIcon(old(xTaken), old(oTaken), replies)
        invariant iconSet ==> used == RepliesRead(old(xTaken), old(oTaken), replies)
        invariant iconSet ==> xTaken == (old(xTaken) || icon == Some(X))
        invariant iconSet ==> oTaken == (old(oTaken) || icon == Some(O))
        decreases |replies| - used + (if iconSet then 0 else 1)
      {
        if !xTaken && !oTaken {
          if used == |replies| {
            return;
          }
          var choice := IconOfReply(replies[used]);
          used := used + 1;
          if choice == Some(X) {
            icon := choice;
            iconSet := true;
            xTaken := true;
          }
          if choice == Some(O) {
            icon := choice;
            iconSet := true;
            oTaken := true;
          }
        } else if !xTaken {
          icon := Some(X);
          iconSet := true;
          xTaken := true;
        } else {
          icon := Some(O);
          iconSet := true;
          oTaken := true;
        }
      }
    }
  }

  /** A human side: its icon, its running score and the positions it claimed in this match. */
  class Player {
    var icon: Icon
    var score: nat
    var positions: seq<int>

    /** The end of `Player.__init__`, once the icon is settled (main.py:43-44). */
    constructor (i: Icon)
      ensures icon == i && score == 0 && positions == []
    {
      icon, score, positions := i, 0, [];
    }

    /** Record a claimed position (main.py:46-47). */
    method SelectTile(position: int)
      modifies this`positions
      ensures positions == old(positions) + [position]
    {
      positions := positions + [position];
    }
  }

  /** `Player()`: settle the icon through the registry, then start with no score and no positions
      (main.py:23-44). None when the replies run out before an icon is chosen. */
  method NewPlayer(registry: IconRegistry, replies: seq<string>) returns (p: Option<Player>, used: nat)
    modifies registry
    ensures var a := AssignedIcon(old(registry.xTaken), old(registry.oTaken), replies);
            && (p == None <==> a == None)
            && (p != None ==> fresh(p.value) && p.value.icon == a.value
                              && p.value.score == 0 && p.value.positions == [])
    ensures used == RepliesRead(old(registry.xTaken), old(registry.oTaken), replies)
    ensures registry.xTaken == (old(registry.xTaken) || (p != None && p.value.icon == X))
    ensures registry.oTaken == (old(registry.oTaken) || (p != None && p.value.icon == O))
  {
    var icon;
    icon, used := registry.Assign(replies);
    if icon == None {
      p := None;
    } else {
      var player := new Player(icon.value);
      p := Some(player);
    }
  }
}
