/** The text commands a client sends over its websocket, as the read loop of
    server/main.go decodes them: a rename with "setup|" and the intent tokens
    of the switch. Decoding is stated on the part of a player a message can
    change, its Intent. */
module Commands {
  import opened GameRules

  /** The fields of a player a message can change. */
  datatype Intent = Intent(name: string, left: bool, right: bool, up: bool, down: bool, fire: bool, status: PlayerStatus)

  /** The five intent flags. */
  datatype Key = LeftKey | RightKey | UpKey | DownKey | FireKey

  /** The intent part of a player. */
  function IntentIn(s: PlayerState): Intent
  {
    Intent(s.name, s.left, s.right, s.up, s.down, s.fire, s.status)
  }

  /** The player with its intent replaced. */
  function Absorb(s: PlayerState, i: Intent): (r: PlayerState)
    ensures IntentIn(r) == i
    ensures r.(name := s.name, left := s.left, right := s.right, up := s.up, down := s.down,
               fire := s.fire, status := s.status) == s
  {
    s.(name := i.name, left := i.left, right := i.right, up := i.up, down := i.down,
       fire := i.fire, status := i.status)
  }

  /** Putting back a player's own intent changes nothing. */
  lemma AbsorbOwn(s: PlayerState)
    ensures Absorb(s, IntentIn(s)) == s
  {
  }

  /** The key groups of the switch: one key, or a horizontal and a vertical one. */
  datatype Pad = Left | LeftUp | LeftDown | Right | RightUp | RightDown | Down | Up | Fire

  /** A recognised message: a pad pressed or released, or a status change. */
  datatype Token = Pressed(pad: Pad) | Released(pad: Pad) | PauseToken | ResumeToken

  /** The marker of a rename message. */
  const Setup: string := "setup|"

  function Keys(pad: Pad): set<Key>
  {
    match pad
    case Left => {LeftKey}
    case LeftUp => {LeftKey, UpKey}
    case LeftDown => {LeftKey, DownKey}
    case Right => {RightKey}
    case RightUp => {RightKey, UpKey}
    case RightDown => {RightKey, DownKey}
    case Down => {DownKey}
    case Up => {UpKey}
    case Fire => {FireKey}
  }

  /** The message that carries a token: the pad's name followed by
      "pressed" or "release", or the status word. */
  function Print(t: Token): string
  {
    match t
    case PauseToken => "pause"
    case ResumeToken => "resume"
    case Released(Left) => "Leftrelease"
    case Pressed(Left) => "Leftpressed"
    case Released(LeftUp) => "LeftUprelease"
    case Pressed(LeftUp) => "LeftUppressed"
    case Released(LeftDown) => "LeftDownrelease"
    case Pressed(LeftDown) => "LeftDownpressed"
    case Released(Right) => "Rightrelease"
    case Pressed(Right) => "Rightpressed"
    case Released(RightUp) => "RightUprelease"
    case Pressed(RightUp) => "RightUppressed"
    case Released(RightDown) => "RightDownrelease"
    case Pressed(RightDown) => "RightDownpressed"
    case Released(Down) => "Downrelease"
    case Pressed(Down) => "Downpressed"
    case Released(Up) => "Uprelease"
    case Pressed(Up) => "Uppressed"
    case Pressed(Fire) => "Firepressed"
    case Released(Fire) => "Firerelease"
  }

  /** The cases of the switch on the message, in the source's order; any
      other message matches no case. */
  function Parse(msg: string): Option<Token>
  {
    if msg == "pause" then Some(PauseToken)
    else if msg == "resume" then Some(ResumeToken)
    else if msg == "Leftrelease" then Some(Released(Left))
    else if msg == "Leftpressed" then Some(Pressed(Left))
    else if msg == "LeftUprelease" then Some(Released(LeftUp))
    else if msg == "LeftUppressed" then Some(Pressed(LeftUp))
    else if msg == "LeftDownrelease" then Some(Released(LeftDown))
    else if msg == "LeftDownpressed" then Some(Pressed(LeftDown))
    else if msg == "Rightrelease" then Some(Released(Right))
    else if msg == "Rightpressed" then Some(Pressed(Right))
    else if msg == "RightUprelease" then Some(Released(RightUp))
    else if msg == "RightUppressed" then Some(Pressed(RightUp))
    else if msg == "RightDownrelease" then Some(Released(RightDown))
    else if msg == "RightDownpressed" then Some(Pressed(RightDown))
    else if msg == "Downrelease" then Some(Released(Down))
    else if msg == "Downpressed" then Some(Pressed(Down))
    else if msg == "Uprelease" then Some(Released(Up))
    else if msg == "Uppressed" then Some(Pressed(Up))
    else if msg == "Firepressed" then Some(Pressed(Fire))
    else if msg == "Firerelease" then Some(Released(Fire))
    else None
  }

  /** Every token is recognised from its message, and a recognised message is
      exactly the message of its token. */
  lemma ParsePrint(msg: string, t: Token)
    ensures Parse(msg) == Some(t) <==> msg == Print(t)
  {
    ParseExact(msg);
    if msg == Print(t) {
      PrintRecognised(t);
    }
  }

  /** A message the switch recognises is the message of the token it yields. */
  lemma ParseExact(msg: string)
    ensures Parse(msg) != None ==> msg == Print(Parse(msg).value)
  {
  }

  lemma PrintRecognised(t: Token)
    ensures Parse(Print(t)) == Some(t)
  {
    match t
    case Pressed(pad) => PressedRecognised(pad);
    case Released(pad) => ReleasedRecognised(pad);
    case PauseToken =>
    case ResumeToken =>
  }

  lemma PressedRecognised(pad: Pad)
    ensures Parse(Print(Pressed(pad))) == Some(Pressed(pad))
  {
  }

  lemma ReleasedRecognised(pad: Pad)
    ensures Parse(Print(Released(pad))) == Some(Released(pad))
  {
  }

  /** No token message holds a '|'. */
  lemma TokensHaveNoBar(t: Token)
    ensures '|' !in Print(t)
  {
    match t
    case Pressed(pad) => PressedHasNoBar(pad);
    case Released(pad) => ReleasedHasNoBar(pad);
    case PauseToken =>
    case ResumeToken =>
  }

  lemma PressedHasNoBar(pad: Pad)
    ensures '|' !in Print(Pressed(pad))
  {
  }

  lemma ReleasedHasNoBar(pad: Pad)
    ensures '|' !in Print(Released(pad))
  {
  }

  /** Whether the intent holds the flag of a key. */
  function Held(i: Intent, k: Key): bool
  {
    match k
    case LeftKey => i.left
    case RightKey => i.right
    case UpKey => i.up
    case DownKey => i.down
    case FireKey => i.fire
  }

  /** The intent with the flags of ks set to v. */
  function Hold(i: Intent, ks: set<Key>, v: bool): (r: Intent)
    ensures r.name == i.name && r.status == i.status
    ensures forall k :: Held(r, k) == if k in ks then v else Held(i, k)
  {
    var r := i.(left := if LeftKey in ks then v else i.left,
                right := if RightKey in ks then v else i.right,
                up := if UpKey in ks then v else i.up,
                down := if DownKey in ks then v else i.down,
                fire := if FireKey in ks then v else i.fire);
    HeldEach(i, ks, v, r);
    r
  }

  /** The flags of r, key by key. */
  lemma HeldEach(i: Intent, ks: set<Key>, v: bool, r: Intent)
    requires r.left == (if LeftKey in ks then v else i.left)
    requires r.right == (if RightKey in ks then v else i.right)
    requires r.up == (if UpKey in ks then v else i.up)
    requires r.down == (if DownKey in ks then v else i.down)
    requires r.fire == (if FireKey in ks then v else i.fire)
    ensures forall k :: Held(r, k) == if k in ks then v else Held(i, k)
  {
    forall k
      ensures Held(r, k) == if k in ks then v else Held(i, k)
    {
      match k
      case LeftKey =>
      case RightKey =>
      case UpKey =>
      case DownKey =>
      case FireKey =>
    }
  }

  /** The effect of one case of the switch. */
  function Perform(i: Intent, t: Token): Intent
  {
    match t
    case Pressed(pad) => Hold(i, Keys(pad), true)
    case Released(pad) => Hold(i, Keys(pad), false)
    case PauseToken => i.(status := Pause)
    case ResumeToken => i.(status := Resume)
  }

  /** A pressed token sets exactly its keys, a released one clears exactly
      its keys, and neither touches the name or the status. */
  lemma PerformPad(i: Intent, pad: Pad)
    ensures var r := Perform(i, Pressed(pad));
      r.name == i.name && r.status == i.status && forall k :: Held(r, k) == (k in Keys(pad) || Held(i, k))
    ensures var r := Perform(i, Released(pad));
      r.name == i.name && r.status == i.status && forall k :: Held(r, k) == (k !in Keys(pad) && Held(i, k))
  {
  }

  /** A compound pad moves one horizontal and one vertical key. */
  lemma CompoundPads(pad: Pad)
    requires pad in {LeftUp, LeftDown, RightUp, RightDown}
    ensures |Keys(pad)| == 2
    ensures (LeftKey in Keys(pad)) != (RightKey in Keys(pad))
    ensures (UpKey in Keys(pad)) != (DownKey in Keys(pad))
    ensures FireKey !in Keys(pad)
  {
  }

  /** sub occurs in s starting at index i. */
  predicate OccursAt(s: string, sub: string, i: int)
  {
    0 <= i && i + |sub| <= |s| && s[i..i + |sub|] == sub
  }

  /** Whether sub occurs in s (strings.Contains). */
  function Contains(s: string, sub: string): (r: bool)
    ensures r <==> exists i :: OccursAt(s, sub, i)
    decreases |s|
  {
    if |s| < |sub| then false
    else if s[..|sub|] == sub then assert OccursAt(s, sub, 0); true
    else ContainsShift(s, sub); Contains(s[1..], sub)
  }

  /** When sub is not at the front of s, its occurrences in s are those in
      the tail of s, one place further on. */
  lemma ContainsShift(s: string, sub: string)
    requires |s| >= |sub| && s[..|sub|] != sub
    ensures (exists i :: OccursAt(s, sub, i)) <==> (exists i :: OccursAt(s[1..], sub, i))
  {
    forall i | OccursAt(s, sub, i)
      ensures OccursAt(s[1..], sub, i - 1)
    {
      assert i != 0;
      assert s[1..][i - 1..i - 1 + |sub|] == s[i..i + |sub|];
    }
    forall i | OccursAt(s[1..], sub, i)
      ensures OccursAt(s, sub, i + 1)
    {
      assert s[1..][i..i + |sub|] == s[i + 1..i + 1 + |sub|];
    }
  }

  /** s with every occurrence of sub removed, scanning from the left and
      going on after each removed occurrence (strings.Replace with "" and -1). */
  function Strip(s: string, sub: string): string
    requires sub != []
    decreases |s|
  {
    if |s| < |sub| then s
    else if s[..|sub|] == sub then Strip(s[|sub|..], sub)
    else [s[0]] + Strip(s[1..], sub)
  }

  /** Without an occurrence, nothing is removed. */
  lemma {:induction false} StripUnchanged(s: string, sub: string)
    requires sub != [] && !Contains(s, sub)
    ensures Strip(s, sub) == s
    decreases |s|
  {
    if |s| >= |sub| {
      StripUnchanged(s[1..], sub);
    }
  }

  /** Removal never lengthens the message, and with an occurrence it removes
      at least one whole marker. */
  lemma {:induction false} StripShortens(s: string, sub: string)
    requires sub != []
    ensures |Strip(s, sub)| <= |s|
    ensures Contains(s, sub) ==> |Strip(s, sub)| <= |s| - |sub|
    decreases |s|
  {
    if |s| < |sub| {
    } else if s[..|sub|] == sub {
      StripShortens(s[|sub|..], sub);
    } else {
      StripShortens(s[1..], sub);
    }
  }

  /** A leading marker is dropped and the scan goes on after it. */
  lemma StripPrefix(s: string, sub: string)
    requires sub != []
    ensures Strip(sub + s, sub) == Strip(s, sub)
  {
    assert (sub + s)[..|sub|] == sub;
    assert (sub + s)[|sub|..] == s;
  }

  /** A message without '|' carries no rename marker. */
  lemma NoMarker(msg: string)
    requires '|' !in msg
    ensures !Contains(msg, Setup)
  {
    forall i | 0 <= i && i + |Setup| <= |msg|
      ensures !OccursAt(msg, Setup, i)
    {
      assert msg[i..i + |Setup|][5] == msg[i + 5];
    }
  }

  /** One text message of the read loop (the rename and the switch after
      it): a message containing "setup|" renames the player to the message
      without its markers, then the message is matched against the tokens. */
  function Decode(i: Intent, msg: string): Intent
  {
    var named := if Contains(msg, Setup) then i.(name := Strip(msg, Setup)) else i;
    match Parse(msg)
    case None => named
    case Some(t) => Perform(named, t)
  }

  /** A frame of the websocket: only text frames carry commands. */
  datatype Frame = TextFrame(text: string) | BinaryFrame(data: seq<bv8>)

  /** One frame of the read loop: frames that are not text are skipped. */
  function Receive(i: Intent, f: Frame): Intent
  {
    match f
    case TextFrame(msg) => Decode(i, msg)
    case BinaryFrame(_) => i
  }

  /** The frames of a connection, in order. */
  function ReceiveAll(i: Intent, fs: seq<Frame>): (r: Intent)
    decreases |fs|
  {
    if fs == [] then i else ReceiveAll(Receive(i, fs[0]), fs[1..])
  }

  /** No token carries the rename marker. */
  lemma TokensAreNotRenames(msg: string)
    requires Parse(msg) != None
    ensures !Contains(msg, Setup)
  {
    ParseExact(msg);
    TokensHaveNoBar(Parse(msg).value);
    NoMarker(msg);
  }

  /** What one message does: a rename changes only the name; a token does
      what its case says; anything else changes nothing. */
  lemma DecodeCases(i: Intent, msg: string)
    ensures Contains(msg, Setup) ==> Decode(i, msg) == i.(name := Strip(msg, Setup))
    ensures Parse(msg) != None ==> Decode(i, msg) == Perform(i, Parse(msg).value)
    ensures !Contains(msg, Setup) && Parse(msg) == None ==> Decode(i, msg) == i
  {
    if Parse(msg) != None {
      TokensAreNotRenames(msg);
    }
  }

  /** Binary frames and unknown messages leave the player as it was; only
      the recognised messages and renames change it. */
  lemma {:induction false} ReceiveAllIgnores(i: Intent, fs: seq<Frame>)
    requires forall n :: 0 <= n < |fs| ==> fs[n].BinaryFrame?
    ensures ReceiveAll(i, fs) == i
    decreases |fs|
  {
    if fs != [] {
      ReceiveAllIgnores(i, fs[1..]);
    }
  }

  /** The frames of a connection are handled one after the other. */
  lemma {:induction false} ReceiveAllAppend(i: Intent, fs: seq<Frame>, gs: seq<Frame>)
    ensures ReceiveAll(i, fs + gs) == ReceiveAll(ReceiveAll(i, fs), gs)
    decreases |fs|
  {
    if fs != [] {
      assert (fs + gs)[1..] == fs[1..] + gs;
      ReceiveAllAppend(Receive(i, fs[0]), fs[1..], gs);
    } else {
      assert fs + gs == gs;
    }
  }

  /** Pause and resume change the status only. */
  lemma StatusTokens(i: Intent)
    ensures Decode(i, "pause") == i.(status := Pause)
    ensures Decode(i, "resume") == i.(status := Resume)
  {
    DecodeCases(i, "pause");
    DecodeCases(i, "resume");
  }

  /** Sending the same message twice is sending it once. */
  lemma DecodeIdempotent(i: Intent, msg: string)
    ensures Decode(Decode(i, msg), msg) == Decode(i, msg)
  {
    var j := Decode(i, msg);
    DecodeCases(i, msg);
    DecodeCases(j, msg);
    match Parse(msg)
    case None =>
    case Some(t) => PerformTwice(i, t);
  }

  /** Each case of the switch is idempotent. */
  lemma PerformTwice(i: Intent, t: Token)
    ensures Perform(Perform(i, t), t) == Perform(i, t)
  {
  }

  /** Releasing a pad after pressing it restores the flags it found clear. */
  lemma ReleaseUndoesPress(i: Intent, pad: Pad)
    requires forall k :: k in Keys(pad) ==> !Held(i, k)
    ensures Decode(Decode(i, Print(Pressed(pad))), Print(Released(pad))) == i
  {
    PrintRecognised(Pressed(pad));
    PrintRecognised(Released(pad));
    DecodeCases(i, Print(Pressed(pad)));
    var j := Decode(i, Print(Pressed(pad)));
    DecodeCases(j, Print(Released(pad)));
    var r := Perform(j, Released(pad));
    assert forall k :: Held(r, k) == Held(i, k);
    assert r.left == Held(r, LeftKey) && r.right == Held(r, RightKey) && r.up == Held(r, UpKey);
    assert r.down == Held(r, DownKey) && r.fire == Held(r, FireKey);
  }

  /** A message the switch does not know and without the marker is ignored. */
  lemma Ignored(i: Intent, msg: string)
    requires Parse(msg) == None && '|' !in msg
    ensures Decode(i, msg) == i
  {
    NoMarker(msg);
  }

  /** The client's key-held messages ("Leftdown" and so on) have no case in
      the switch: the server ignores them. */
  lemma SidewaysHeldIgnored(i: Intent, msg: string)
    requires msg == "Leftdown" || msg == "Rightdown"
    ensures Decode(i, msg) == i
  {
    Ignored(i, msg);
  }

  lemma UpDownHeldIgnored(i: Intent, msg: string)
    requires msg == "Updown" || msg == "Downdown"
    ensures Decode(i, msg) == i
  {
    Ignored(i, msg);
  }

  /** The client's "shoot" message has no case either: firing is only driven
      by "Firepressed" and "Firerelease". */
  lemma ShootIgnored(i: Intent)
    ensures Decode(i, "shoot") == i
  {
    Ignored(i, "shoot");
  }

  /** A rename message: the marker and the name after it. */
  lemma RenameExample(i: Intent)
    ensures Decode(i, "setup|Ace") == i.(name := "Ace")
  {
    var s := "setup|Ace";
    assert s == Setup + "Ace";
    assert OccursAt(s, Setup, 0);
    StripPrefix("Ace", Setup);
    NoMarker("Ace");
    StripUnchanged("Ace", Setup);
    DecodeCases(i, s);
  }

  /** Removal is a single left-to-right pass: a marker split by another
      marker survives it, so a renamed player's name can still contain
      "setup|". */
  lemma StripIsOnePass()
    ensures Strip("setsetup|up|", Setup) == Setup
  {
    var s := "setsetup|up|";
    assert s[..6][3] != Setup[3];
    assert s[1..][..6][0] != Setup[0];
    assert s[2..][..6][0] != Setup[0];
    assert s[3..][..6] == Setup;
    assert s[3..][6..] == "up|";
    assert Strip("up|", Setup) == "up|";
    assert s[1..][1..] == s[2..] && s[2..][1..] == s[3..];
  }
}
