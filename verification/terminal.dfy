/**
  The user interface's output buffer. Colour is a tag on each character
  (what `chalk.green`/`chalk.red` wrap a string in) and the platform's line
  separator is one symbol, `Eol`. `writeLine(x)` appends `x` and then `Eol`,
  so the whole output is the rendering of the lines written so far, and the
  tests read it back with `output.split(EOL)`.
 */
module Terminal {

  datatype Colour = Plain | Green | Red

  datatype Sym = Glyph(ch: char, colour: Colour) | Eol

  predicate LineBreakFree(line: seq<Sym>) {
    forall i :: 0 <= i < |line| ==> line[i].Glyph?
  }

  /** The characters of a line, colour dropped. */
  function Text(line: seq<Sym>): (text: string)
    requires LineBreakFree(line)
    ensures |text| == |line|
  {
    seq(|line|, i requires 0 <= i < |line| => line[i].ch)
  }

  /** `text` written in one colour (`chalk.<colour>(text)`). */
  function Paint(colour: Colour, text: string): (line: seq<Sym>)
    ensures LineBreakFree(line)
    ensures Text(line) == text
    ensures forall i :: 0 <= i < |line| ==> line[i].colour == colour
  {
    seq(|text|, i requires 0 <= i < |text| => Glyph(text[i], colour))
  }

  /** The output produced by writing `lines` one `writeLine` at a time. */
  function Render(lines: seq<seq<Sym>>): seq<Sym>
  {
    if |lines| == 0 then [] else lines[0] + [Eol] + Render(lines[1..])
  }

  /** JavaScript's `split` on the line separator: the pieces between separators. */
  function Split(out: seq<Sym>): (pieces: seq<seq<Sym>>)
    ensures |pieces| >= 1
    ensures forall k :: 0 <= k < |pieces| ==> LineBreakFree(pieces[k])
  {
    if |out| == 0 then [[]]
    else if out[0] == Eol then [[]] + Split(out[1..])
    else
      var rest := Split(out[1..]);
      [[out[0]] + rest[0]] + rest[1..]
  }

  /** Writing more lines only appends to the output. */
  lemma {:induction false} RenderAppend(a: seq<seq<Sym>>, b: seq<seq<Sym>>)
    ensures Render(a + b) == Render(a) + Render(b)
    decreases |a|
  {
    if |a| > 0 {
      assert (a + b)[1..] == a[1..] + b;
      RenderAppend(a[1..], b);
    } else {
      assert a + b == b;
    }
  }

  /** Splitting at the first separator isolates the line before it. */
  lemma {:induction false} SplitAtFirstEol(a: seq<Sym>, b: seq<Sym>)
    requires LineBreakFree(a)
    ensures Split(a + [Eol] + b) == [a] + Split(b)
    decreases |a|
  {
    var s := a + [Eol] + b;
    if |a| == 0 {
      assert s[0] == Eol && s[1..] == b;
    } else {
      assert s[0] == a[0] && s[0] != Eol;
      assert s[1..] == a[1..] + [Eol] + b;
      SplitAtFirstEol(a[1..], b);
      assert [s[0]] + a[1..] == a;
    }
  }

  /**
    Reading the output back with `split` gives every written line in order,
    followed by the empty piece after the final separator.
   */
  lemma {:induction false} SplitRender(lines: seq<seq<Sym>>)
    requires forall k :: 0 <= k < |lines| ==> LineBreakFree(lines[k])
    ensures Split(Render(lines)) == lines + [[]]
    decreases |lines|
  {
    if |lines| > 0 {
      SplitAtFirstEol(lines[0], Render(lines[1..]));
      SplitRender(lines[1..]);
      assert lines == [lines[0]] + lines[1..];
    }
  }
}
