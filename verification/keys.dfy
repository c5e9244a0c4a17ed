/** Decoding of the characters `getch` delivers into the keys the explorer
    reacts to. */
module Keys {
  import opened Strings

  datatype Key = Up | Down | Right | Left | Quit | Enter | Ignored

  /** Either the input ends inside a key (the explorer would keep blocking in
      `getch`), or the first key and how many characters it used. */
  datatype Decoded = Partial | Decoded(key: Key, used: nat)

  const Esc: char := '\U{1B}'

  /** The characters a terminal sends for each recognised key. */
  function Encode(k: Key): seq<char>
    requires k != Ignored
  {
    match k
    case Up => [Esc, '[', 'A']
    case Down => [Esc, '[', 'B']
    case Right => [Esc, '[', 'C']
    case Left => [Esc, '[', 'D']
    case Quit => ['q']
    case Enter => ['\r']
  }

  /** Reads one key: ESC is followed by one more read, and by a third only
      when the second is `[`; every other first character is a key by itself. */
  function Decode(keys: seq<char>): (d: Decoded)
    ensures d.Partial? <==> keys == [] || (keys[0] == Esc && (|keys| == 1 || (keys[1] == '[' && |keys| == 2)))
    ensures d.Decoded? ==> 1 <= d.used <= |keys|
    ensures d.Decoded? ==> d.used == if keys[0] != Esc then 1 else if keys[1] != '[' then 2 else 3
    ensures d.Decoded? && d.key != Ignored ==> keys[..d.used] == Encode(d.key)
    ensures d.Decoded? && d.key == Ignored ==> forall k :: k != Ignored ==> !StartsWith(keys, Encode(k))
  {
    if keys == [] then Partial
    else if keys[0] == Esc then
      if |keys| < 2 then Partial
      else if keys[1] != '[' then Decoded(Ignored, 2)
      else if |keys| < 3 then Partial
      else
        var k := match keys[2]
          case 'A' => Up
          case 'B' => Down
          case 'C' => Right
          case 'D' => Left
          case _ => Ignored;
        Decoded(k, 3)
    else if keys[0] == 'q' then Decoded(Quit, 1)
    else if keys[0] == '\r' then Decoded(Enter, 1)
    else Decoded(Ignored, 1)
  }

  /** Every recognised key is decoded back from its encoding, whatever follows
      it. */
  lemma DecodeEncode(k: Key, rest: seq<char>)
    requires k != Ignored
    ensures Decode(Encode(k) + rest) == Decoded(k, |Encode(k)|)
  {
  }
}
