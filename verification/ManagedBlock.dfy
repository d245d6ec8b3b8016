/**
 The managed configuration block: one marked region is replaced and the rest of the file
 is kept, up to the trimming the code does.
 */
module ManagedBlock {
  import opened Base

  const BEGIN: string := "# BEGIN AAI SECURITY MANAGED MCP"
  const END: string := "# END AAI SECURITY MANAGED MCP"
  const SERVER: string := "[mcp_servers.\"agentic-security\"]"
  const GAP: string := "\n\n"

  /** The characters that Python's `str.strip` removes. */
  predicate IsSpace(c: char) {
    || '\t' <= c <= '\r' || '\U{1c}' <= c <= ' ' || c == '\U{85}' || c == '\U{a0}' || c == '\U{1680}'
    || '\U{2000}' <= c <= '\U{200a}' || c == '\U{2028}' || c == '\U{2029}' || c == '\U{202f}'
    || c == '\U{205f}' || c == '\U{3000}'
  }

  function LStrip(s: string): string {
    if |s| > 0 && IsSpace(s[0]) then LStrip(s[1..]) else s
  }

  function RStrip(s: string): string {
    if |s| > 0 && IsSpace(s[|s| - 1]) then RStrip(s[..|s| - 1]) else s
  }

  function Strip(s: string): string { RStrip(LStrip(s)) }

  predicate OccursAt(s: string, marker: string, i: nat) {
    i + |marker| <= |s| && s[i..i + |marker|] == marker
  }

  /** The first occurrence at or after `from`. */
  function First(s: string, marker: string, from: nat): (r: Option<nat>)
    ensures r.Some? ==> from <= r.value && OccursAt(s, marker, r.value)
    ensures forall i :: from <= i && OccursAt(s, marker, i) ==> r.Some? && r.value <= i
    decreases |s| - from
  {
    if from + |marker| > |s| then None
    else if OccursAt(s, marker, from) then Some(from)
    else First(s, marker, from + 1)
  }

  predicate Contains(s: string, marker: string) { First(s, marker, 0).Some? }

  /** Replace only the managed block, refusing an ambiguous file. */
  function Merge(existing: string, block: string): Result<string> {
    if Contains(existing, BEGIN) != Contains(existing, END) then Refused
    else if Contains(existing, BEGIN) then
      var start := First(existing, BEGIN, 0).value;
      match First(existing, END, start)
      case None => Refused
      case Some(i) => Ok(Strip(RStrip(existing[..start]) + GAP + block + existing[i + |END|..]) + "\n")
    else if Contains(existing, SERVER) then Refused
    else if Strip(existing) == "" then Ok(Strip(block) + "\n")
    else Ok(Strip(RStrip(existing) + GAP + block) + "\n")
  }

  // ----- What is outside the block -----

  datatype Outside = Outside(left: string, right: string)

  /** Text before the block, trimmed; text after it, trimmed on the right. */
  function OutsideOf(existing: string): Option<Outside> {
    if Contains(existing, BEGIN) != Contains(existing, END) then None
    else if Contains(existing, BEGIN) then
      var start := First(existing, BEGIN, 0).value;
      match First(existing, END, start)
      case None => None
      case Some(i) => Some(Outside(Strip(existing[..start]), RStrip(existing[i + |END|..])))
    else if Contains(existing, SERVER) then None
    else Some(Outside(Strip(existing), ""))
  }

  function Lead(o: Outside): string { if o.left == "" then "" else o.left + GAP }

  /** The file that holds exactly this outside text around a block. */
  function Frame(o: Outside, block: string): string {
    Lead(o) + block + o.right + "\n"
  }

  /** A block as the program builds it: its first line opens and its last line closes. */
  predicate Marked(block: string) {
    |END| <= |block| && OccursAt(block, BEGIN, 0) && OccursAt(block, END, |block| - |END|)
  }

  predicate ClosesOnce(block: string) {
    |END| <= |block| && First(block, END, 0) == Some(|block| - |END|)
  }

  // ----- Trimming -----

  lemma {:induction false} LStripAppend(u: string, v: string)
    ensures LStrip(u + v) == if LStrip(u) == "" then LStrip(v) else LStrip(u) + v
  {
    if u == "" {
      assert u + v == v;
    } else if IsSpace(u[0]) {
      assert (u + v)[1..] == u[1..] + v;
      LStripAppend(u[1..], v);
    }
  }

  lemma {:induction false} RStripAppend(u: string, v: string)
    ensures RStrip(u + v) == if RStrip(v) == "" then RStrip(u) else u + RStrip(v)
  {
    if v == "" {
      assert u + v == u;
    } else if IsSpace(v[|v| - 1]) {
      assert (u + v)[..|u + v| - 1] == u + v[..|v| - 1];
      RStripAppend(u, v[..|v| - 1]);
    }
  }

  lemma {:induction false} RStripShape(s: string)
    ensures RStrip(s) <= s
    ensures RStrip(s) != "" ==> !IsSpace(RStrip(s)[|RStrip(s)| - 1])
    ensures RStrip(RStrip(s)) == RStrip(s)
  {
    if |s| > 0 && IsSpace(s[|s| - 1]) { RStripShape(s[..|s| - 1]); }
  }

  lemma {:induction false} LStripShape(s: string)
    ensures |LStrip(s)| <= |s| && s[|s| - |LStrip(s)|..] == LStrip(s)
    ensures LStrip(s) != "" ==> !IsSpace(LStrip(s)[0])
    ensures s != "" && !IsSpace(s[|s| - 1]) ==> LStrip(s) != "" && LStrip(s)[|LStrip(s)| - 1] == s[|s| - 1]
  {
    if |s| > 0 && IsSpace(s[0]) { LStripShape(s[1..]); }
  }

  /** Trimming right first or left first gives the same text. */
  lemma StripBothWays(s: string)
    ensures Strip(s) == LStrip(RStrip(s))
  {
    RStripShape(s);
    LStripShape(RStrip(s));
    var r := RStrip(s);
    var tail := s[|r|..];
    assert s == r + tail;
    BlankTail(s);
    LStripAppend(r, tail);
    if r != "" {
      RStripAppend(LStrip(r), tail);
    } else {
      LStripBlank(tail);
    }
  }

  /** What `RStrip` removes is blank. */
  lemma {:induction false} BlankTail(s: string)
    ensures RStrip(s) <= s && RStrip(s[|RStrip(s)|..]) == ""
  {
    RStripShape(s);
    if |s| > 0 && IsSpace(s[|s| - 1]) {
      BlankTail(s[..|s| - 1]);
      var tail := s[|RStrip(s)|..];
      assert tail[..|tail| - 1] == s[..|s| - 1][|RStrip(s)|..];
    }
  }

  lemma {:induction false} LStripBlank(s: string)
    requires RStrip(s) == ""
    ensures RStrip(LStrip(s)) == ""
  {
    if |s| > 0 && IsSpace(s[0]) {
      RStripAppend([s[0]], s[1..]);
      assert s == [s[0]] + s[1..];
      LStripBlank(s[1..]);
    }
  }

  // ----- Merging is framing -----

  /** A marked block has nothing to trim. */
  lemma MarkedIsTrim(block: string)
    requires Marked(block)
    ensures block != "" && !IsSpace(block[0]) && !IsSpace(block[|block| - 1])
    ensures LStrip(block) == block && RStrip(block) == block
  {
    EdgesAreTrim(block, BEGIN, END);
  }

  lemma EdgesAreTrim(block: string, begin: string, end: string)
    requires 0 < |begin| && 0 < |end| <= |block|
    requires OccursAt(block, begin, 0) && OccursAt(block, end, |block| - |end|)
    requires !IsSpace(begin[0]) && !IsSpace(end[|end| - 1])
    ensures !IsSpace(block[0]) && !IsSpace(block[|block| - 1]) && LStrip(block) == block && RStrip(block) == block
  {
    hide IsSpace;
    assert block[0] == block[0..|begin|][0];
    assert block[|block| - 1] == block[|block| - |end|..|block|][|end| - 1];
  }

  /** A non-blank text and the blank gap after it, trimmed on the left in front of a block. */
  lemma TrimLeft(p: string, block: string)
    requires Marked(block) && RStrip(p) == p
    ensures LStrip(p + GAP + block) == (if p == "" then "" else LStrip(p) + GAP) + block
    ensures p != "" ==> LStrip(p) != ""
  {
    hide LStrip, RStrip, IsSpace;
    MarkedIsTrim(block);
    RStripShape(p);
    LStripShape(p);
    GapIsBlank();
    LStripAppend(p, GAP);
    LStripAppend(p + GAP, block);
  }

  lemma GapIsBlank()
    ensures LStrip(GAP) == "" && RStrip(GAP) == "" && RStrip("\n") == "" && LStrip("\n") == ""
  {
    assert GAP[1..] == "\n" && "\n"[1..] == "" && GAP[..1] == "\n" && "\n"[..0] == "";
  }

  lemma StripAround(w: string, lead: string, block: string, post: string)
    requires LStrip(w) == lead + block && block != "" && RStrip(block) == block
    ensures Strip(w + post) == lead + block + RStrip(post)
  {
    hide LStrip, RStrip;
    LStripAppend(w, post);
    RStripAppend(lead + block, post);
    RStripAppend(lead, block);
  }

  lemma TrimAround(pre: string, block: string, post: string)
    requires Marked(block)
    ensures Strip(RStrip(pre) + GAP + block + post) + "\n" == Frame(Outside(Strip(pre), RStrip(post)), block)
  {
    hide LStrip, RStrip, Strip, Marked;
    var p := RStrip(pre);
    RStripShape(pre);
    StripBothWays(pre);
    TrimLeft(p, block);
    MarkedIsTrim(block);
    LStripShape(p);
    StripAround(p + GAP + block, Lead(Outside(Strip(pre), "")), block, post);
  }

  /** Whether a merge is accepted does not depend on the block; the result frames the outside text. */
  lemma MergeIsFrame(existing: string, block: string)
    requires Marked(block)
    ensures Merge(existing, block) ==
              match OutsideOf(existing) { case None => Refused case Some(o) => Ok(Frame(o, block)) }
  {
    hide LStrip, RStrip, First, IsSpace, Marked;
    MarkedIsTrim(block);
    RStripShape("");
    if Contains(existing, BEGIN) {
      hide Strip;
      var start := First(existing, BEGIN, 0).value;
      match First(existing, END, start)
      case None =>
      case Some(i) => TrimAround(existing[..start], block, existing[i + |END|..]);
    } else if Strip(existing) == "" {
      assert Frame(Outside("", ""), block) == block + "\n";
    } else {
      TrimAround(existing, block, "");
      assert RStrip(existing) + GAP + block + "" == RStrip(existing) + GAP + block;
    }
  }

  // ----- The outside of a frame -----

  lemma InnerOccurrence(s: string, lo: nat, hi: nat, marker: string, i: nat)
    requires lo <= hi <= |s| && OccursAt(s[lo..hi], marker, i)
    ensures OccursAt(s, marker, lo + i)
  {
    var n := |marker|;
    assert lo + i + n <= hi;
    forall k | 0 <= k < n
      ensures s[lo + i..lo + i + n][k] == marker[k]
    {
      assert s[lo..hi][i..i + n][k] == s[lo..hi][i + k];
    }
  }

  lemma {:induction false} StripIsInner(s: string)
    ensures exists lo: nat, hi: nat :: lo <= hi <= |s| && Strip(s) == s[lo..hi]
  {
    LStripShape(s);
    RStripShape(LStrip(s));
    var lo := |s| - |LStrip(s)|;
    assert Strip(s) == s[lo..lo + |Strip(s)|];
  }

  /** The text before the block is trimmed and holds no opening marker. */
  lemma OutsideIsTrim(existing: string)
    requires OutsideOf(existing).Some?
    ensures var o := OutsideOf(existing).value;
            && Strip(o.left) == o.left && RStrip(o.left) == o.left && RStrip(o.right) == o.right
            && !Contains(o.left, BEGIN)
  {
    hide LStrip, RStrip, IsSpace;
    var marked := Contains(existing, BEGIN);
    var end := if marked then First(existing, BEGIN, 0).value else |existing|;
    var pre := existing[..end];
    assert pre == existing[0..end] && (!marked ==> pre == existing);
    RStripShape(LStrip(pre));
    TrimTwice(pre);
    if marked {
      RStripShape(existing[First(existing, END, end).value + |END|..]);
    } else {
      RStripShape("");
    }
    PrefixHoldsNoMarker(existing, end);
  }

  lemma PrefixHoldsNoMarker(existing: string, end: nat)
    requires end <= |existing| && (First(existing, BEGIN, 0) == None || First(existing, BEGIN, 0) == Some(end))
    ensures !Contains(Strip(existing[..end]), BEGIN)
  {
    InnerHoldsNoMarker(existing, end, BEGIN);
  }

  lemma InnerHoldsNoMarker(existing: string, end: nat, marker: string)
    requires end <= |existing| && marker != ""
    requires First(existing, marker, 0) == None || First(existing, marker, 0) == Some(end)
    ensures !Contains(Strip(existing[..end]), marker)
  {
    hide LStrip, RStrip, Strip, First;
    var pre := existing[..end];
    StripIsInner(pre);
    var lo: nat, hi: nat :| lo <= hi <= |pre| && Strip(pre) == pre[lo..hi];
    var found := First(Strip(pre), marker, 0);
    if found.Some? {
      InnerOccurrence(pre, lo, hi, marker, found.value);
      assert pre == existing[0..end];
      InnerOccurrence(existing, 0, end, marker, lo + found.value);
    }
  }

  lemma TrimTwice(s: string)
    ensures Strip(Strip(s)) == Strip(s)
  {
    StripBothWays(s);
    RStripShape(LStrip(s));
    LStripShape(RStrip(s));
    var t := Strip(s);
    assert LStrip(t) == t;
  }

  /** A one-line marker cannot start before a blank gap that follows text without it. */
  lemma FirstAfterGap(left: string, rest: string, marker: string)
    requires marker != "" && '\n' !in marker && marker <= rest && !Contains(left, marker)
    ensures First(left + GAP + rest, marker, 0) == Some(|left| + |GAP|)
  {
    hide First;
    var y, m, n := left + GAP + rest, |left|, |left| + |GAP|;
    assert y[n..n + |marker|] == rest[..|marker|];
    assert OccursAt(y, marker, n);
    forall i: nat | i < n
      ensures !OccursAt(y, marker, i)
    {
      if i + |marker| <= m {
        assert y[i..i + |marker|] == left[i..i + |marker|];
        assert !OccursAt(left, marker, i);
      } else {
        var k := if i <= m then m - i else 0;
        assert y[i..i + |marker|][k] == y[i + k] == '\n' != marker[k];
      }
    }
  }

  /** The first opening marker of a frame is its block's. */
  lemma FrameOpens(o: Outside, block: string)
    requires Marked(block) && !Contains(o.left, BEGIN)
    ensures First(Frame(o, block), BEGIN, 0) == Some(|Lead(o)|)
  {
    BeginIsOneLine();
    FrameOpensWith(o, block, BEGIN) by { assert block[0..|BEGIN|] == block[..|BEGIN|]; }
  }

  lemma BeginIsOneLine()
    ensures BEGIN != "" && '\n' !in BEGIN
  {
  }

  lemma FrameOpensWith(o: Outside, block: string, marker: string)
    requires marker != "" && '\n' !in marker && marker <= block && !Contains(o.left, marker)
    ensures First(Frame(o, block), marker, 0) == Some(|Lead(o)|)
  {
    hide First;
    var rest := block + o.right + "\n";
    assert marker == block[..|marker|] == rest[..|marker|];
    if o.left == "" {
      assert Frame(o, block) == rest;
      assert OccursAt(rest, marker, 0);
    } else {
      FirstAfterGap(o.left, rest, marker);
      assert Frame(o, block) == o.left + GAP + rest;
    }
  }

  /** Where a marker is first found does not depend on what surrounds the searched part. */
  lemma FirstInMiddle(before: string, middle: string, after: string, marker: string)
    requires First(middle, marker, 0).Some?
    ensures First(before + middle + after, marker, |before|) == Some(|before| + First(middle, marker, 0).value)
  {
    hide First;
    var y, n := before + middle + after, |before|;
    var f := First(middle, marker, 0).value;
    assert y[n..n + |middle|] == middle;
    InnerOccurrence(y, n, n + |middle|, marker, f);
    forall i: nat | n <= i < n + f
      ensures !OccursAt(y, marker, i)
    {
      assert y[i..i + |marker|] == middle[i - n..i - n + |marker|];
      assert !OccursAt(middle, marker, i - n);
    }
  }

  /** Replacing a block leaves the outside text alone, for a block that closes only at its end. */
  lemma FrameKeepsOutside(existing: string, block: string)
    requires Marked(block) && ClosesOnce(block) && OutsideOf(existing).Some?
    ensures OutsideOf(Frame(OutsideOf(existing).value, block)) == OutsideOf(existing)
  {
    hide LStrip, RStrip, Strip, First, IsSpace, Marked;
    var o := OutsideOf(existing).value;
    OutsideIsTrim(existing);
    FrameOpens(o, block);
    FirstInMiddle(Lead(o), block, o.right + "\n", END);
    var y := Frame(o, block);
    assert y == Lead(o) + block + (o.right + "\n");
    assert First(y, BEGIN, 0) == Some(|Lead(o)|);
    assert First(y, END, |Lead(o)|) == Some(|Lead(o)| + |block| - |END|);
    assert First(y, END, 0).Some?;
    assert y[|Lead(o)| + |block|..] == o.right + "\n" && y[..|Lead(o)|] == Lead(o);
    GapIsBlank();
    RStripAppend(o.right, "\n");
    LeadIsLeft(o);
  }

  lemma LeadIsLeft(o: Outside)
    requires Strip(o.left) == o.left && RStrip(o.left) == o.left
    ensures Strip(Lead(o)) == o.left
  {
    hide LStrip, RStrip, IsSpace;
    GapIsBlank();
    StripBothWays(Lead(o));
    StripBothWays(o.left);
    RStripAppend(o.left, GAP);
  }

  // ----- Laws of the merge -----

  /** A merge keeps the outside text, changes only the block, and absorbs an earlier merge. */
  lemma MergeAbsorbs(existing: string, first: string, second: string)
    requires Marked(first) && ClosesOnce(first) && Marked(second)
    requires Merge(existing, first).Ok?
    ensures Merge(Merge(existing, first).value, second) == Merge(existing, second)
    ensures OutsideOf(Merge(existing, first).value) == OutsideOf(existing)
  {
    MergeIsFrame(existing, first);
    MergeIsFrame(existing, second);
    FrameKeepsOutside(existing, first);
    MergeIsFrame(Merge(existing, first).value, second);
  }

  lemma MergeIsIdempotent(existing: string, block: string)
    requires Marked(block) && ClosesOnce(block) && Merge(existing, block).Ok?
    ensures Merge(Merge(existing, block).value, block) == Merge(existing, block)
  {
    MergeAbsorbs(existing, block, block);
  }

  ghost predicate Absorbed(first: string, second: string) {
    forall existing :: Merge(existing, first).Ok? ==>
      Merge(Merge(existing, first).value, second) == Merge(existing, second)
  }

  /**
   Absorption holds exactly for a block whose closing marker occurs once: a block that carries
   the marker inside one of its quoted values leaves its tail behind on the next merge.
   */
  lemma AbsorbsExactlyWhenItClosesOnce(first: string, second: string)
    requires Marked(first) && Marked(second)
    ensures Absorbed(first, second) <==> ClosesOnce(first)
  {
    if ClosesOnce(first) {
      forall existing | Merge(existing, first).Ok?
        ensures Merge(Merge(existing, first).value, second) == Merge(existing, second)
      {
        MergeAbsorbs(existing, first, second);
      }
    } else {
      EarlyCloseLeavesTail(first, second);
      assert Merge("", first).Ok?;
    }
  }

  lemma EarlyCloseLeavesTail(first: string, second: string)
    requires Marked(first) && Marked(second) && !ClosesOnce(first)
    ensures Merge("", first).Ok? && Merge(Merge("", first).value, second) != Merge("", second)
  {
    var none := Outside("", "");
    EmptyIsOutside();
    MergeIsFrame("", first);
    MergeIsFrame("", second);
    var y := Frame(none, first);
    MergeIsFrame(y, second);
    LeftoverTail(first);
    assert |Frame(OutsideOf(y).value, second)| > |Frame(none, second)| by { hide OutsideOf; }
  }

  lemma EmptyIsOutside()
    ensures OutsideOf("") == Some(Outside("", ""))
  {
  }

  lemma LeftoverTail(first: string)
    requires Marked(first) && !ClosesOnce(first)
    ensures var o := OutsideOf(Frame(Outside("", ""), first));
            o.Some? && o.value.left == "" && o.value.right != ""
  {
    hide LStrip, RStrip, First, IsSpace;
    var none := Outside("", "");
    var y := Frame(none, first);
    MarkedIsTrim(first);
    FrameOpens(none, first) by { assert !Contains("", BEGIN); }
    FirstInMiddle("", first, "\n", END);
    assert y == "" + first + "\n";
    var f := First(first, END, 0).value;
    assert OccursAt(first, END, |first| - |END|);
    assert f < |first| - |END|;
    var tail := first[f + |END|..];
    assert y == first + "\n" && y[..0] == "";
    SuffixOfAppend(first, "\n", f + |END|);
    GapIsBlank();
    RStripAppend(tail, "\n");
    TailIsTrim(first, f + |END|);
  }

  lemma SuffixOfAppend(s: string, t: string, k: nat)
    requires k <= |s|
    ensures (s + t)[k..] == s[k..] + t
  {
  }

  /** A proper suffix of a text that ends in a visible character is not blank. */
  lemma TailIsTrim(s: string, from: nat)
    requires from < |s| && !IsSpace(s[|s| - 1])
    ensures RStrip(s[from..]) == s[from..] != ""
    ensures Strip("") == ""
  {
    hide IsSpace;
    var tail := s[from..];
    assert |tail| == |s| - from;
    assert tail[|tail| - 1] == s[|s| - 1];
  }

  // ----- What is accepted -----

  ghost predicate Occurs(s: string, marker: string) { exists i: nat :: OccursAt(s, marker, i) }

  /** A closing marker stands at or after an opening one. */
  ghost predicate Closed(s: string) {
    exists i: nat, j: nat :: i <= j && OccursAt(s, BEGIN, i) && OccursAt(s, END, j)
  }

  /**
   A merge is accepted exactly when the file has a block that is opened and closed again, or when
   it has neither marker and does not configure the server by hand.
   */
  lemma MergeExactlyWhen(existing: string, block: string)
    ensures Merge(existing, block).Ok? <==>
              || Closed(existing)
              || (!Occurs(existing, BEGIN) && !Occurs(existing, END) && !Occurs(existing, SERVER))
  {
    hide First, OccursAt, Strip, RStrip;
    FoundExactlyWhen(existing, BEGIN);
    FoundExactlyWhen(existing, END);
    FoundExactlyWhen(existing, SERVER);
    if Closed(existing) {
      var i: nat, j: nat :| i <= j && OccursAt(existing, BEGIN, i) && OccursAt(existing, END, j);
      assert First(existing, BEGIN, 0).value <= i;
      assert First(existing, END, First(existing, BEGIN, 0).value).Some?;
    }
  }

  lemma FoundExactlyWhen(s: string, marker: string)
    ensures Contains(s, marker) <==> Occurs(s, marker)
  {
    hide First, OccursAt;
  }

  /** The text a merge keeps: around the first opening marker and the first closing one after it. */
  lemma OutsideIsAround(existing: string, i: nat, j: nat)
    requires i <= j && OccursAt(existing, BEGIN, i) && forall k: nat :: k < i ==> !OccursAt(existing, BEGIN, k)
    requires OccursAt(existing, END, j) && forall k: nat :: i <= k < j ==> !OccursAt(existing, END, k)
    ensures OutsideOf(existing) == Some(Outside(Strip(existing[..i]), RStrip(existing[j + |END|..])))
  {
    hide First, OccursAt, Strip, RStrip;
    assert First(existing, BEGIN, 0) == Some(i);
    assert First(existing, END, i) == Some(j);
  }

  /** A closing marker that stands only before the opening one is an error, not an overwrite. */
  lemma MisorderedMarkersAreRefused(existing: string, block: string)
    requires Contains(existing, BEGIN)
    requires First(existing, END, First(existing, BEGIN, 0).value).None?
    ensures Merge(existing, block) == Refused && OutsideOf(existing) == None
  {
  }
}
