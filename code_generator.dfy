/** The generated Python script that runs one automation function by name. */
module CodeGenerator {

  const ImportKeyword := "from automation import "
  const CallOpen := "result = "
  const CallClose := "()"
  const SuccessText := " executed successfully."
  /** The doubled braces of the template come out as this literal text. */
  const ErrorPlaceholder := "{e}"

  const Newline := "\n"
  const MainOpen := "\ndef main():\n    try:\n        "
  const Part0 := Newline + ImportKeyword
  const Part1 := Newline + (MainOpen + CallOpen)
  const Tail2 := "\n        if result:\n            print(result)\n        else:\n            print(\""
  const ErrorOpen := "\")\n    except Exception as e:\n        print(f\"Error executing function: "
  const ScriptEnd := "\")\n\nif __name__ == \"__main__\":\n    main()\n    "
  const Tail3 := ErrorOpen + ErrorPlaceholder + ScriptEnd
  const Part2 := CallClose + Tail2
  const Part3 := SuccessText + Tail3

  /** `sub` occurs somewhere in `s`. */
  predicate Contains(s: string, sub: string)
  {
    exists i :: 0 <= i <= |s| && sub <= s[i..]
  }

  /** The template with the function name spliced in three times. */
  function GenerateCode(name: string): (code: string)
    ensures |code| == |Part0| + |Part1| + |Part2| + |Part3| + 3 * |name|
    ensures Part0 + name <= code
  {
    Part0 + name + Part1 + name + Part2 + name + Part3
  }

  lemma ContainsMiddle(a: string, x: string, b: string)
    ensures Contains(a + x + b, x)
  {
    assert (a + x + b)[|a|..] == x + b;
  }

  /** The shape of the template, with every fixed part abstract. */
  lemma ImportShape(nl: string, kw: string, n: string, t1: string, p2: string, p3: string)
    ensures Contains(nl + kw + n + (nl + t1) + n + p2 + n + p3, nl + kw + n + nl)
  {
    var whole := nl + kw + n + (nl + t1) + n + p2 + n + p3;
    assert whole == [] + (nl + kw + n + nl) + (t1 + n + p2 + n + p3);
    ContainsMiddle([], nl + kw + n + nl, t1 + n + p2 + n + p3);
  }

  lemma CallShape(p0: string, n: string, nl: string, t1: string, open: string, close: string, t2: string, p3: string)
    ensures Contains(p0 + n + (nl + (t1 + open)) + n + (close + t2) + n + p3, open + n + close)
  {
    var whole := p0 + n + (nl + (t1 + open)) + n + (close + t2) + n + p3;
    assert whole == (p0 + n + nl + t1) + (open + n + close) + (t2 + n + p3);
    ContainsMiddle(p0 + n + nl + t1, open + n + close, t2 + n + p3);
  }

  lemma SuccessShape(p0: string, n: string, p1: string, p2: string, success: string, t3: string)
    ensures Contains(p0 + n + p1 + n + p2 + n + (success + t3), n + success)
  {
    var whole := p0 + n + p1 + n + p2 + n + (success + t3);
    assert whole == (p0 + n + p1 + n + p2) + (n + success) + t3;
    ContainsMiddle(p0 + n + p1 + n + p2, n + success, t3);
  }

  /** The script imports exactly the named function, on a line of its own. */
  lemma ImportsName(name: string)
    ensures Contains(GenerateCode(name), Newline + ImportKeyword + name + Newline)
  {
    ImportShape(Newline, ImportKeyword, name, MainOpen + CallOpen, Part2, Part3);
  }

  /** The script calls the function with no arguments. */
  lemma CallsWithoutArguments(name: string)
    ensures Contains(GenerateCode(name), CallOpen + name + CallClose)
  {
    CallShape(Part0, name, Newline, MainOpen, CallOpen, CallClose, Tail2, Part3);
  }

  /** The script reports success with the function's own name. */
  lemma ReportsSuccess(name: string)
    ensures Contains(GenerateCode(name), name + SuccessText)
  {
    SuccessShape(Part0, name, Part1, Part2, SuccessText, Tail3);
  }

  lemma PlaceholderShape(prefix: string, success: string, eo: string, ph: string, se: string)
    ensures Contains(prefix + (success + (eo + ph + se)), ph)
    ensures (success + (eo + ph + se)) <= (prefix + (success + (eo + ph + se)))[|prefix|..]
  {
    var whole := prefix + (success + (eo + ph + se));
    assert whole == (prefix + success + eo) + ph + se;
    ContainsMiddle(prefix + success + eo, ph, se);
    assert whole[|prefix|..] == success + (eo + ph + se);
  }

  /** The escaped braces are output as the literal `{e}`, inside the fixed text that follows
      the last splice of the name. */
  lemma ErrorPlaceholderIsLiteral(name: string)
    ensures Contains(GenerateCode(name), ErrorPlaceholder)
    ensures Part3 <= GenerateCode(name)[|Part0 + name + Part1 + name + Part2 + name|..]
  {
    PlaceholderShape(Part0 + name + Part1 + name + Part2 + name, SuccessText, ErrorOpen, ErrorPlaceholder, ScriptEnd);
  }

  /** The name is the only varying part: different names give different scripts. */
  lemma GenerateCodeInjective(a: string, b: string)
    requires GenerateCode(a) == GenerateCode(b)
    ensures a == b
  {
    var n := |a|;
    assert |b| == n;
    assert GenerateCode(a)[|Part0|..|Part0| + n] == a;
    assert GenerateCode(b)[|Part0|..|Part0| + n] == b;
  }
}
