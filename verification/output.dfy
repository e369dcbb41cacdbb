/** The printers' output: a stack of text buffers, of which only the top
  * receives text, and an indentation counter. */
module Output {
  import opened Text

  /** The stack after appending `s` to its top buffer. */
  function Appended(stack: seq<string>, s: string): (r: seq<string>)
    requires stack != []
    ensures |r| == |stack| && r[..|r| - 1] == stack[..|stack| - 1]
    ensures r[|r| - 1] == stack[|stack| - 1] + s
  {
    stack[..|stack| - 1] + [stack[|stack| - 1] + s]
  }

  /** After appending `t`, the last character written is the last of `t`,
    * or what it was before when `t` is empty. */
  lemma LastCharOfAppended(stack: seq<string>, t: string)
    requires stack != [] && stack[|stack| - 1] != ""
    ensures var r := Appended(stack, t);
            r[|r| - 1] != "" && r[|r| - 1][|r[|r| - 1]| - 1] == LastChar(t, stack[|stack| - 1][|stack[|stack| - 1]| - 1])
  {
  }

  /** The stack after appending each piece in turn to the top buffer. */
  function AppendedAll(stack: seq<string>, pieces: seq<string>): (r: seq<string>)
    requires stack != []
    ensures r != []
  {
    if pieces == [] then stack else Appended(AppendedAll(stack, pieces[..|pieces| - 1]), pieces[|pieces| - 1])
  }

  lemma AppendedTwice(stack: seq<string>, s: string, t: string)
    requires stack != []
    ensures Appended(Appended(stack, s), t) == Appended(stack, s + t)
  {
    assert stack[|stack| - 1] + s + t == stack[|stack| - 1] + (s + t);
  }

  /** Appending works on the top buffer only. */
  lemma AppendedTop(below: seq<string>, top: string, s: string)
    ensures Appended(below + [top], s) == below + [top + s]
  {
    assert (below + [top])[..|below|] == below;
  }

  /** Appending nothing leaves the stack as it was. */
  lemma AppendedNothing(stack: seq<string>)
    requires stack != []
    ensures Appended(stack, "") == stack
  {
    assert stack[|stack| - 1] + "" == stack[|stack| - 1];
  }

  /** Text appended after a push is exactly what the matching pop returns,
    * and the buffers below are untouched. */
  lemma {:induction false} PushAppendPop(stack: seq<string>, pieces: seq<string>)
    ensures AppendedAll(stack + [""], pieces) == stack + [Concat(pieces)]
  {
    if pieces != [] {
      PushAppendPop(stack, pieces[..|pieces| - 1]);
      assert (stack + [Concat(pieces[..|pieces| - 1])])[..|stack|] == stack;
    }
  }

  class OutputBuffer {
    /** The buffer stack; the last element is the top. */
    var builders: seq<string>
    var indentation: int

    constructor ()
      ensures builders == [] && indentation == 0
    {
      builders := [];
      indentation := 0;
    }

    function Top(): string
      reads this
      requires builders != []
    {
      builders[|builders| - 1]
    }

    /** Opens a fresh, empty buffer on top of the stack. */
    method PushStringBuilder()
      modifies this
      ensures builders == old(builders) + [""]
      ensures indentation == old(indentation)
    {
      builders := builders + [""];
    }

    /** Closes the top buffer and returns its text. */
    method PopStringBuilder() returns (text: string)
      requires builders != []
      modifies this
      ensures text == old(Top())
      ensures builders == old(builders[..|builders| - 1])
      ensures indentation == old(indentation)
    {
      text := builders[|builders| - 1];
      builders := builders[..|builders| - 1];
    }

    /** Discards the text of the top buffer, keeping the depth. */
    method ResetStringBuilder()
      requires builders != []
      modifies this
      ensures |builders| == old(|builders|) && Top() == ""
      ensures builders[..|builders| - 1] == old(builders[..|builders| - 1])
      ensures indentation == old(indentation)
    {
      var _ := PopStringBuilder();
      PushStringBuilder();
    }

    /** The last character written to the top buffer, or `NO_CHAR` when there
      * is no buffer; an empty top buffer has no last character. */
    function PreviousChar(): (c: char)
      reads this
      requires builders == [] || Top() != ""
      ensures builders == [] ==> c == NO_CHAR
      ensures builders != [] ==> EndsWith(Top(), [c])
    {
      if builders != [] then Top()[|Top()| - 1] else NO_CHAR
    }

    method Indent()
      modifies this
      ensures indentation == old(indentation) + 1 && builders == old(builders)
    {
      indentation := indentation + 1;
    }

    method Outdent()
      modifies this
      ensures indentation == old(indentation) - 1 && builders == old(builders)
    {
      indentation := indentation - 1;
    }

    /** Appends `s` to the top buffer, preceded by one `INDENTATION` per level
      * when `indent` is set. */
    method Print(s: string, indent: bool)
      requires builders != []
      modifies this
      ensures builders == Appended(old(builders), (if indent then IndentText(indentation) else "") + s)
      ensures !indent ==> builders == Appended(old(builders), s)
      ensures indentation == old(indentation)
    {
      var top := builders[|builders| - 1];
      if indent {
        var k := 0;
        while k < indentation
          invariant indentation <= 0 ==> k == 0
          invariant indentation > 0 ==> 0 <= k <= indentation
          invariant top == old(Top()) + Repeat(INDENTATION, k)
        {
          top := top + INDENTATION;
          k := k + 1;
        }
      }
      var prefix := if indent then IndentText(indentation) else "";
      assert top == old(Top()) + prefix;
      top := top + s;
      assert top == old(Top()) + (prefix + s);
      builders := builders[..|builders| - 1] + [top];
      assert !indent ==> prefix + s == s;
    }

    /** Appends one line separator. */
    method PrintNewline()
      requires builders != []
      modifies this
      ensures builders == Appended(old(builders), LINE_SEPARATOR)
      ensures indentation == old(indentation)
    {
      Print(LINE_SEPARATOR, false);
      assert "" + LINE_SEPARATOR == LINE_SEPARATOR;
    }

    /** `println(s, indent)`: the text, then a line separator. */
    method PrintLine(s: string, indent: bool)
      requires builders != []
      modifies this
      ensures builders == Appended(old(builders), (if indent then IndentText(indentation) else "") + s + LINE_SEPARATOR)
      ensures !indent ==> builders == Appended(old(builders), s + LINE_SEPARATOR)
      ensures indentation == old(indentation)
    {
      Print(s, indent);
      PrintNewline();
      AppendedTwice(old(builders), (if indent then IndentText(indentation) else "") + s, LINE_SEPARATOR);
      assert !indent ==> "" + s == s;
    }
  }
}
