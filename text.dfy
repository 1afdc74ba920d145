/** Character and string helpers shared by the query, sort and reply logic. */
module Text {

  /** ASCII lower-casing of one character; every other character is kept. */
  function LowerChar(c: char): (r: char)
    ensures 'A' <= c <= 'Z' ==> r as int == c as int + 32
    ensures !('A' <= c <= 'Z') ==> r == c
    ensures !('A' <= r <= 'Z')
  {
    if 'A' <= c <= 'Z' then (c as int + 32) as char else c
  }

  /** ASCII lower-casing of a string, character by character. */
  function Lower(s: string): (r: string)
    ensures |r| == |s|
    ensures forall i | 0 <= i < |s| :: r[i] == LowerChar(s[i])
  {
    seq(|s|, i requires 0 <= i < |s| => LowerChar(s[i]))
  }

  /** `needle` occurs in `hay` starting at position `i`. */
  predicate OccursAt(hay: string, needle: string, i: int) {
    0 <= i && i + |needle| <= |hay| && hay[i..i + |needle|] == needle
  }

  /** `needle` is a substring of `hay`. */
  predicate Contains(hay: string, needle: string) {
    exists i | 0 <= i <= |hay| :: OccursAt(hay, needle, i)
  }

  /** Substring test that ignores (ASCII) case, as a case-insensitive
      regular-expression match of a quoted string does. */
  predicate ContainsIgnoreCase(hay: string, needle: string) {
    Contains(Lower(hay), Lower(needle))
  }

  function DigitChar(d: nat): char
    requires d < 10
  {
    ['0', '1', '2', '3', '4', '5', '6', '7', '8', '9'][d]
  }

  /** `b` occurs in `a + b + c` right after `a`, which the text opens
      with, and `c` closes it. */
  lemma Infix(a: string, b: string, c: string)
    ensures OccursAt(a + b + c, b, |a|) && Contains(a + b + c, b)
    ensures (a + b + c)[..|a|] == a
    ensures (a + b + c)[|a + b|..] == c
  {
    var hay := a + b + c;
    assert hay[|a|..|a| + |b|] == b;
    assert OccursAt(hay, b, |a|) && 0 <= |a| <= |hay|;
  }

  /** The text of several lines opens with the first character of the
      first line. */
  lemma LinesHead(lines: seq<string>)
    requires lines != [] && lines[0] != []
    ensures Lines(lines) != [] && Lines(lines)[0] == lines[0][0]
  {
    assert Lines(lines) == lines[0] + ("\n" + Lines(lines[1..]));
  }

  /** Decimal rendering of a natural number, as `Long.toString` prints it. */
  function NatToString(n: nat): (r: string)
    ensures |r| >= 1
    ensures forall i | 0 <= i < |r| :: '0' <= r[i] <= '9'
  {
    if n < 10 then [DigitChar(n)] else NatToString(n / 10) + [DigitChar(n % 10)]
  }

  /** Decimal rendering of an integer, with a leading '-' when negative. */
  function IntToString(i: int): (r: string)
    ensures |r| >= 1
    ensures (r[0] == '-') <==> i < 0
  {
    if i < 0 then "-" + NatToString(-i) else NatToString(i)
  }

  /** The text `lines` make when each is appended with `appendLine`,
      that is, followed by a line feed. */
  function Lines(lines: seq<string>): string {
    if lines == [] then "" else lines[0] + "\n" + Lines(lines[1..])
  }

  lemma {:induction false} LinesAppend(a: seq<string>, b: seq<string>)
    ensures Lines(a + b) == Lines(a) + Lines(b)
  {
    if a == [] {
      assert a + b == b;
    } else {
      assert (a + b)[1..] == a[1..] + b;
      LinesAppend(a[1..], b);
    }
  }

  /** The lines of consecutive blocks, in order. */
  function Flatten(blocks: seq<seq<string>>): seq<string> {
    if blocks == [] then [] else blocks[0] + Flatten(blocks[1..])
  }

  lemma {:induction false} FlattenAppend(a: seq<seq<string>>, b: seq<seq<string>>)
    ensures Flatten(a + b) == Flatten(a) + Flatten(b)
  {
    if a == [] {
      assert a + b == b;
    } else {
      assert (a + b)[0] == a[0] && (a + b)[1..] == a[1..] + b;
      FlattenAppend(a[1..], b);
    }
  }

  /** Blocks of three lines each: block `i` occupies lines `3i` to `3i + 2`. */
  lemma {:induction false} FlattenTriples(blocks: seq<seq<string>>, i: nat)
    requires forall j | 0 <= j < |blocks| :: |blocks[j]| == 3
    requires i < |blocks|
    ensures |Flatten(blocks)| == 3 * |blocks|
    ensures Flatten(blocks)[3 * i..3 * i + 3] == blocks[i]
  {
    var rest := Flatten(blocks[1..]);
    assert Flatten(blocks) == blocks[0] + rest;
    if |blocks| == 1 {
      assert rest == [];
    } else {
      FlattenTriples(blocks[1..], if i == 0 then 0 else i - 1);
      if i > 0 {
        assert blocks[1..][i - 1] == blocks[i];
        assert (blocks[0] + rest)[3 * i..3 * i + 3] == rest[3 * (i - 1)..3 * (i - 1) + 3];
      }
    }
  }

  lemma FlattenOne(block: seq<string>)
    ensures Flatten([block]) == block
  {
    assert [block][1..] == [];
    assert block + [] == block;
  }
}
