/**
 * Reading the completion: the verdict `replyContent?.match(/^(YES|NO)/im)?.[0]`,
 * the reply `replyContent?.replace(/^[^\n]*\n/, "")`, and what the handler
 * does with the pair.
 */
module Reply {
  import opened Wrappers

  /** The characters after which the `m` flag lets `^` match. */
  predicate IsLineTerminator(c: char)
  {
    c == '\n' || c == '\r' || c == '\U{2028}' || c == '\U{2029}'
  }

  predicate LineStart(s: string, p: nat)
    requires p <= |s|
  {
    p == 0 || IsLineTerminator(s[p - 1])
  }

  /**
   * The `i` flag on an upper-case ASCII pattern letter `u`: without the `u`
   * flag only `u` itself and its ASCII lower case match it.
   */
  predicate FoldsTo(c: char, u: char)
  {
    c == u || c as int == u as int + 32
  }

  predicate MatchesAt(s: string, p: nat, pattern: string)
  {
    p + |pattern| <= |s| && forall k :: 0 <= k < |pattern| ==> FoldsTo(s[p + k], pattern[k])
  }

  /** The alternation `YES|NO` tried at one position: the first alternative wins, and the text matched is returned as written. */
  function TokenAt(s: string, p: nat): Option<string>
    requires p <= |s|
  {
    if MatchesAt(s, p, "YES") then Some(s[p..p + 3])
    else if MatchesAt(s, p, "NO") then Some(s[p..p + 2])
    else None
  }

  /** `p` is where the regex engine reports its match: a line start with a token, and none earlier. */
  ghost predicate FirstTokenAt(s: string, p: nat)
  {
    p <= |s| && LineStart(s, p) && TokenAt(s, p).Some? &&
    forall q: nat :: q < p && LineStart(s, q) ==> TokenAt(s, q).None?
  }

  function VerdictFrom(s: string, p: nat): (r: Option<string>)
    requires p <= |s|
    ensures r.Some? ==> exists q :: p <= q <= |s| && LineStart(s, q) && TokenAt(s, q) == r &&
                                    forall q' :: p <= q' < q && LineStart(s, q') ==> TokenAt(s, q').None?
    ensures r.None? ==> forall q :: p <= q <= |s| && LineStart(s, q) ==> TokenAt(s, q).None?
    decreases |s| - p
  {
    if p == |s| then None
    else if LineStart(s, p) && TokenAt(s, p).Some? then TokenAt(s, p)
    else VerdictFrom(s, p + 1)
  }

  /** `replyBool`: the first line-start match of `YES` or `NO`, ignoring case. */
  function Verdict(s: string): Option<string>
  {
    VerdictFrom(s, 0)
  }

  /** The verdict exists exactly when some line starts with a token, and it is the token at the first such line start. */
  lemma VerdictSpec(s: string)
    ensures Verdict(s).Some? <==> exists p: nat :: FirstTokenAt(s, p)
    ensures forall p: nat :: FirstTokenAt(s, p) ==> Verdict(s) == TokenAt(s, p)
  {
    var r := VerdictFrom(s, 0);
    if r.Some? {
      var p :| 0 <= p <= |s| && LineStart(s, p) && TokenAt(s, p) == r &&
               forall q' :: 0 <= q' < p && LineStart(s, q') ==> TokenAt(s, q').None?;
      assert FirstTokenAt(s, p);
      forall q: nat | FirstTokenAt(s, q) ensures q == p {
      }
    } else {
      forall p: nat | FirstTokenAt(s, p) ensures false {
      }
    }
  }

  /** A token can only start with a letter that folds to `Y` or to `N`. */
  lemma NoTokenAt(s: string, p: nat)
    requires p < |s| && !FoldsTo(s[p], 'Y') && !FoldsTo(s[p], 'N')
    ensures TokenAt(s, p).None?
  {
    assert !FoldsTo(s[p + 0], "YES"[0]);
    assert !FoldsTo(s[p + 0], "NO"[0]);
  }

  /**
   * A verdict is the matched text itself: three letters spelling `YES` or two
   * spelling `NO` in any case. So `"Nope"` yields `"No"`, `"NOTHING"` yields `"NO"`.
   */
  lemma VerdictIsToken(s: string)
    requires Verdict(s).Some?
    ensures var v := Verdict(s).value;
      (|v| == 3 && MatchesAt(v, 0, "YES")) || (|v| == 2 && MatchesAt(v, 0, "NO"))
  {
    VerdictSpec(s);
  }

  /** A verdict of exactly `"NO"` means the earliest line-start token is an upper-case `N` and `O`. */
  lemma VerdictUpperNo(s: string)
    ensures Verdict(s) == Some("NO") <==>
      exists p: nat :: FirstTokenAt(s, p) && p + 2 <= |s| && s[p] == 'N' && s[p + 1] == 'O'
  {
    VerdictSpec(s);
    if Verdict(s) == Some("NO") {
      var p: nat :| FirstTokenAt(s, p);
      UpperNoAt(s, p);
    }
    if exists p: nat :: FirstTokenAt(s, p) && p + 2 <= |s| && s[p] == 'N' && s[p + 1] == 'O' {
      var p: nat :| FirstTokenAt(s, p) && p + 2 <= |s| && s[p] == 'N' && s[p + 1] == 'O';
      UpperNoAt(s, p);
    }
  }

  lemma UpperNoAt(s: string, p: nat)
    requires p <= |s| && TokenAt(s, p).Some?
    ensures TokenAt(s, p) == Some("NO") <==> p + 2 <= |s| && s[p] == 'N' && s[p + 1] == 'O'
  {
    if TokenAt(s, p) == Some("NO") {
      assert s[p..p + 2] == "NO";
      assert s[p] == s[p..p + 2][0];
      assert s[p + 1] == s[p..p + 2][1];
    }
    if p + 2 <= |s| && s[p] == 'N' && s[p + 1] == 'O' {
      assert !FoldsTo(s[p + 0], "YES"[0]);
      assert !MatchesAt(s, p, "YES");
      assert s[p..p + 2] == "NO";
    }
  }

  lemma NopeYieldsNo()
    ensures Verdict("Nope") == Some("No")
  {
    assert !FoldsTo("Nope"[0], "YES"[0]);
    assert MatchesAt("Nope", 0, "NO");
    assert "Nope"[0..2] == "No";
    assert TokenAt("Nope", 0) == Some("No");
    assert FirstTokenAt("Nope", 0);
    VerdictSpec("Nope");
  }

  /** The length of the first line: every character before the first `\n`. */
  function FirstLineLength(s: string): (k: nat)
    ensures k <= |s|
    ensures forall i :: 0 <= i < k ==> s[i] != '\n'
    ensures k < |s| ==> s[k] == '\n'
  {
    if s == [] || s[0] == '\n' then 0 else 1 + FirstLineLength(s[1..])
  }

  /** `replyMsg`: everything after the first `\n`; a text without one comes back unchanged. */
  function StripFirstLine(s: string): (r: string)
    ensures '\n' !in s ==> r == s
    ensures '\n' in s ==> s == s[..FirstLineLength(s)] + "\n" + r
  {
    var k := FirstLineLength(s);
    if k < |s| then s[k + 1..] else s
  }

  /** Prefixing a line and a newline is undone by stripping the first line. */
  lemma StripAfterPrefix(line: string, body: string)
    requires '\n' !in line
    ensures StripFirstLine(line + "\n" + body) == body
  {
    var s := line + "\n" + body;
    var k := FirstLineLength(s);
    assert s[|line|] == '\n';
    assert forall i :: 0 <= i < |line| ==> s[i] == line[i];
    assert k == |line|;
    assert s[k + 1..] == body;
  }

  /** What the handler does with the completion's content. */
  datatype Decision = NoReplyMessage | Ignored | Respond(text: string)

  /**
   * The tail of the handler: a missing or empty reply aborts, only the exact
   * verdict `"NO"` suppresses, and anything else is sent.
   */
  function Decide(content: Option<string>): Decision
  {
    if content.None? || StripFirstLine(content.value) == "" then NoReplyMessage
    else if Verdict(content.value) == Some("NO") then Ignored
    else Respond(StripFirstLine(content.value))
  }

  /** The three outcomes, each by the shape of the completion text. */
  lemma DecideCases(content: Option<string>)
    ensures Decide(content) == NoReplyMessage <==>
      content.None? || content.value == "" || exists line :: '\n' !in line && content.value == line + "\n"
    ensures Decide(content) == Ignored <==>
      content.Some? && StripFirstLine(content.value) != "" &&
      exists p: nat :: FirstTokenAt(content.value, p) && p + 2 <= |content.value| &&
                       content.value[p] == 'N' && content.value[p + 1] == 'O'
    ensures Decide(content).Respond? ==>
      Decide(content).text != "" && |Decide(content).text| <= |content.value| &&
      content.value[|content.value| - |Decide(content).text|..] == Decide(content).text
  {
    if content.Some? {
      var s := content.value;
      VerdictUpperNo(s);
      if exists line :: '\n' !in line && s == line + "\n" {
        var line :| '\n' !in line && s == line + "\n";
        StripAfterPrefix(line, "");
        assert line + "\n" + "" == s;
      }
      if StripFirstLine(s) == "" && s != "" {
        assert '\n' in s;
        var line := s[..FirstLineLength(s)];
        assert s == line + "\n";
        assert '\n' !in line;
      }
    }
  }

  /** A reply without any YES/NO token is not suppressed: the missing decision is only logged. */
  lemma NoVerdictStillResponds(s: string)
    requires Verdict(s).None?
    requires StripFirstLine(s) != ""
    ensures Decide(Some(s)) == Respond(StripFirstLine(s))
  {
  }

  /** A lower- or mixed-case `no` is a verdict, but not the one that suppresses. */
  lemma LowerCaseNoStillResponds(s: string)
    requires Verdict(s).Some? && Verdict(s).value != "NO"
    requires StripFirstLine(s) != ""
    ensures Decide(Some(s)) == Respond(StripFirstLine(s))
  {
  }

  /** A single-line `"NO"` is kept whole as the reply, and its verdict suppresses it. */
  lemma SingleLineNoIsIgnored()
    ensures StripFirstLine("NO") == "NO" && Verdict("NO") == Some("NO")
    ensures Decide(Some("NO")) == Ignored
  {
    assert !FoldsTo("NO"[0], "YES"[0]);
    assert MatchesAt("NO", 0, "NO");
    assert "NO"[0..2] == "NO";
    assert FirstTokenAt("NO", 0);
    VerdictSpec("NO");
  }

  /** A single-line `"YES"` has no line to strip, so the token itself is sent. */
  lemma SingleLineYesIsSent()
    ensures Decide(Some("YES")) == Respond("YES")
  {
    assert MatchesAt("YES", 0, "YES");
    assert FirstTokenAt("YES", 0);
    VerdictSpec("YES");
  }

  /** A verdict line with nothing under it is an empty reply. */
  lemma BareVerdictLineIsNoReply()
    ensures Decide(Some("YES\n")) == NoReplyMessage
  {
    StripAfterPrefix("YES", "");
    assert "YES" + "\n" + "" == "YES\n";
  }

  /** A lower-case `no` first line still lets the text under it through. */
  lemma LowerCaseNoExample()
    ensures Decide(Some("no\nhi")) == Respond("hi")
  {
    StripAfterPrefix("no", "hi");
    assert "no" + "\n" + "hi" == "no\nhi";
    assert MatchesAt("no\nhi", 0, "NO");
    assert FirstTokenAt("no\nhi", 0);
    VerdictSpec("no\nhi");
  }

  /** The verdict need not be on the first line: a later line starting with `NO` suppresses. */
  lemma LaterLineNoIsIgnored()
    ensures Decide(Some("hello\nNO")) == Ignored
  {
    var s := "hello\nNO";
    StripAfterPrefix("hello", "NO");
    assert "hello" + "\n" + "NO" == s;
    LaterLineVerdict();
  }

  lemma LaterLineVerdict()
    ensures Verdict("hello\nNO") == Some("NO")
  {
    var s := "hello\nNO";
    assert !FoldsTo(s[6 + 0], "YES"[0]);
    assert MatchesAt(s, 6, "NO");
    assert s[6..8] == "NO";
    assert VerdictFrom(s, 6) == Some("NO");
    assert VerdictFrom(s, 5) == VerdictFrom(s, 6);
    assert VerdictFrom(s, 4) == VerdictFrom(s, 5);
    assert VerdictFrom(s, 3) == VerdictFrom(s, 4);
    assert VerdictFrom(s, 2) == VerdictFrom(s, 3);
    assert VerdictFrom(s, 1) == VerdictFrom(s, 2);
    NoTokenAt(s, 0);
  }
}
