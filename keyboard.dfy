/**
 * The virtual piano's key layout (`buildKeyboard`): five octaves, C2 to B6,
 * of white keys 40 px apart, with a black key 26 px to the right of every
 * white key that has a sharp. A key is its note name (the label and the
 * `data-note` attribute carry the same text) and its `left` offset in pixels.
 */
module Keyboard {

  const StartOctave: int := 2
  const EndOctave: int := 6
  /** Width of a white key, in pixels. */
  const KeyWidth: int := 40
  /** How far right of its white key a black key starts, in pixels. */
  const BlackOffset: int := 26

  const WhiteOrder: seq<string> := ["C", "D", "E", "F", "G", "A", "B"]
  /** One slot per gap after a white key; no black key between E and F. */
  const BlackOrder: seq<string> := ["C#", "D#", "", "F#", "G#", "A#"]

  datatype Key = Key(note: string, left: int)

  /** `${note}${octave}` for a one-digit octave. */
  function NoteName(note: string, octave: int): (r: string)
    requires 0 <= octave <= 9
    ensures |r| == |note| + 1 && r[..|note|] == note
    ensures r[|note|] as int - '0' as int == octave
  {
    note + [('0' as int + octave) as char]
  }

  // ---------------------------------------------------------------------------
  // The layout, key by key
  // ---------------------------------------------------------------------------

  const WhiteCount: nat := 7 * (EndOctave - StartOctave + 1)
  const BlackCount: nat := 5 * (EndOctave - StartOctave + 1)

  /** The slots of `BlackOrder` that hold a note. */
  const BlackSlots: seq<nat> := [0, 1, 3, 4, 5]

  /** The k-th white key from the left. */
  function WhiteKeyAt(k: nat): Key
    requires k < WhiteCount
  {
    Key(NoteName(WhiteOrder[k % 7], StartOctave + k / 7), KeyWidth * k)
  }

  /** The j-th black key from the left. */
  function BlackKeyAt(j: nat): Key
    requires j < BlackCount
  {
    var slot, octave := BlackSlots[j % 5], StartOctave + j / 5;
    Key(NoteName(BlackOrder[slot], octave),
        KeyWidth * (slot + (octave - StartOctave) * 7) + BlackOffset)
  }

  function WhiteLayout(): (r: seq<Key>)
    ensures |r| == WhiteCount
    ensures forall k :: 0 <= k < WhiteCount ==> r[k] == WhiteKeyAt(k)
  {
    seq(WhiteCount, k requires 0 <= k < WhiteCount => WhiteKeyAt(k))
  }

  function BlackLayout(): (r: seq<Key>)
    ensures |r| == BlackCount
    ensures forall j :: 0 <= j < BlackCount ==> r[j] == BlackKeyAt(j)
  {
    seq(BlackCount, j requires 0 <= j < BlackCount => BlackKeyAt(j))
  }

  /** Number of non-empty slots of `BlackOrder` before slot i. */
  function SharpsBefore(i: nat): nat
    requires i <= |BlackOrder|
  {
    if i <= 2 then i else i - 1
  }

  // ---------------------------------------------------------------------------
  // buildKeyboard
  // ---------------------------------------------------------------------------

  /** Builds the white and black key rows. Without the two containers on the
      page nothing is built. */
  method BuildKeyboard(containersPresent: bool) returns (white: seq<Key>, black: seq<Key>)
    ensures !containersPresent ==> white == [] && black == []
    ensures containersPresent ==> white == WhiteLayout() && black == BlackLayout()
  {
    white, black := [], [];
    if !containersPresent {
      return;
    }
    var keyIndex := 0;
    var octave := StartOctave;
    while octave <= EndOctave
      invariant StartOctave <= octave <= EndOctave + 1
      invariant keyIndex == 7 * (octave - StartOctave)
      invariant white == WhiteLayout()[..keyIndex]
      invariant black == BlackLayout()[..5 * (octave - StartOctave)]
    {
      var n := 0;
      while n < |WhiteOrder|
        invariant 0 <= n <= |WhiteOrder|
        invariant keyIndex == 7 * (octave - StartOctave) + n
        invariant white == WhiteLayout()[..keyIndex]
      {
        var key := Key(NoteName(WhiteOrder[n], octave), keyIndex * KeyWidth);
        WhiteKeyPlaced(octave, n, keyIndex);
        white := white + [key];
        keyIndex := keyIndex + 1;
        n := n + 1;
      }
      var i := 0;
      var base := 5 * (octave - StartOctave);
      while i < |BlackOrder|
        invariant 0 <= i <= |BlackOrder|
        invariant black == BlackLayout()[..base + SharpsBefore(i)]
      {
        if BlackOrder[i] != "" {
          var key := Key(NoteName(BlackOrder[i], octave),
                         KeyWidth * (i + (octave - StartOctave) * 7) + BlackOffset);
          BlackKeyPlaced(octave, i);
          black := black + [key];
        }
        i := i + 1;
      }
      octave := octave + 1;
    }
  }

  /** The key the inner white loop appends is the next one of the layout. */
  lemma WhiteKeyPlaced(octave: int, n: nat, keyIndex: nat)
    requires StartOctave <= octave <= EndOctave && n < |WhiteOrder|
    requires keyIndex == 7 * (octave - StartOctave) + n
    ensures keyIndex < WhiteCount
    ensures WhiteLayout()[..keyIndex + 1] ==
      WhiteLayout()[..keyIndex] + [Key(NoteName(WhiteOrder[n], octave), keyIndex * KeyWidth)]
  {
    assert keyIndex % 7 == n && keyIndex / 7 == octave - StartOctave;
    assert WhiteLayout()[keyIndex] == Key(NoteName(WhiteOrder[n], octave), keyIndex * KeyWidth);
  }

  /** The key the inner black loop appends for a non-empty slot is the next
      one of the layout. */
  lemma BlackKeyPlaced(octave: int, i: nat)
    requires StartOctave <= octave <= EndOctave && i < |BlackOrder| && BlackOrder[i] != ""
    ensures 5 * (octave - StartOctave) + SharpsBefore(i) < BlackCount
    ensures SharpsBefore(i + 1) == SharpsBefore(i) + 1
    ensures var j := 5 * (octave - StartOctave) + SharpsBefore(i);
      BlackLayout()[..j + 1] == BlackLayout()[..j] +
        [Key(NoteName(BlackOrder[i], octave), KeyWidth * (i + (octave - StartOctave) * 7) + BlackOffset)]
  {
    var j := 5 * (octave - StartOctave) + SharpsBefore(i);
    assert j % 5 == SharpsBefore(i) && j / 5 == octave - StartOctave;
    assert BlackSlots[SharpsBefore(i)] == i;
  }

  // ---------------------------------------------------------------------------
  // Properties of the layout
  // ---------------------------------------------------------------------------

  /** The white key under black key j. */
  function WhiteBelow(j: nat): (k: nat)
    requires j < BlackCount
    ensures k < WhiteCount
  {
    7 * (j / 5) + BlackSlots[j % 5]
  }

  /** Every black key is the sharp of the white key it starts over: same
      letter with '#', same octave, 26 px to its right and inside it. */
  lemma BlackKeySharpensWhiteKey(j: nat)
    requires j < BlackCount
    ensures var b, w := BlackLayout()[j], WhiteLayout()[WhiteBelow(j)];
      b.note == [w.note[0], '#', w.note[1]] &&
      b.left == w.left + BlackOffset && w.left < b.left < w.left + KeyWidth
  {
    var k := WhiteBelow(j);
    assert k % 7 == BlackSlots[j % 5] && k / 7 == j / 5;
  }

  /** A white key has a black key 26 px to its right exactly when it is not
      an E or a B. */
  lemma {:induction false} SharpsSkipEAndB(k: nat)
    requires k < WhiteCount
    ensures (exists j :: 0 <= j < BlackCount && BlackLayout()[j].left == WhiteLayout()[k].left + BlackOffset)
      <==> WhiteLayout()[k].note[0] != 'E' && WhiteLayout()[k].note[0] != 'B'
  {
    var w := WhiteLayout()[k];
    if w.note[0] != 'E' && w.note[0] != 'B' {
      var slot := k % 7;
      assert slot != 2 && slot != 6;
      var j := 5 * (k / 7) + SharpsBefore(slot);
      assert j % 5 == SharpsBefore(slot) && j / 5 == k / 7;
      assert BlackLayout()[j].left == w.left + BlackOffset;
    } else {
      forall j | 0 <= j < BlackCount
        ensures BlackLayout()[j].left != w.left + BlackOffset
      {
        var s, o := BlackSlots[j % 5], j / 5;
        assert BlackLayout()[j].left == KeyWidth * (s + 7 * o) + BlackOffset;
        assert (s + 7 * o) % 7 == s;
      }
    }
  }

  /** No two keys of the keyboard share a note name. */
  lemma KeyNamesDistinct()
    ensures forall a, b :: 0 <= a < b < WhiteCount ==> WhiteLayout()[a].note != WhiteLayout()[b].note
    ensures forall a, b :: 0 <= a < b < BlackCount ==> BlackLayout()[a].note != BlackLayout()[b].note
    ensures forall a, b :: 0 <= a < WhiteCount && 0 <= b < BlackCount ==>
      WhiteLayout()[a].note != BlackLayout()[b].note
  {
    forall a, b | 0 <= a < b < WhiteCount
      ensures WhiteLayout()[a].note != WhiteLayout()[b].note
    {
      var na, nb := WhiteLayout()[a].note, WhiteLayout()[b].note;
      if a / 7 == b / 7 {
        assert a % 7 != b % 7;
        assert na[0] != nb[0];
      } else {
        assert na[1] != nb[1];
      }
    }
    forall a, b | 0 <= a < b < BlackCount
      ensures BlackLayout()[a].note != BlackLayout()[b].note
    {
      var na, nb := BlackLayout()[a].note, BlackLayout()[b].note;
      if a / 5 == b / 5 {
        assert a % 5 != b % 5;
        assert na[0] != nb[0];
      } else {
        assert na[2] != nb[2];
      }
    }
    forall a, b | 0 <= a < WhiteCount && 0 <= b < BlackCount
      ensures WhiteLayout()[a].note != BlackLayout()[b].note
    {
      assert |WhiteLayout()[a].note| == 2 && |BlackLayout()[b].note| == 3;
    }
  }
}
