/** The comment box under a post: the blank-text guard, the submission cycle and the
    newest-first list. */
module Comments {
  import opened Common

  datatype Comment = Comment(id: string, authorEmail: Option<string>, date: string, text: string)

  /** The characters `String.prototype.trim` removes: ECMAScript WhiteSpace (tab, vertical
      tab, form feed, space, no-break space, the byte order mark and the other Zs space
      separators) and LineTerminator (LF, CR, U+2028, U+2029). */
  predicate IsJsWhitespace(c: char) {
    var n := c as int;
    (0x09 <= n <= 0x0D) || n == 0x20 || n == 0xA0 || n == 0x1680
    || (0x2000 <= n <= 0x200A) || n == 0x2028 || n == 0x2029 || n == 0x202F
    || n == 0x205F || n == 0x3000 || n == 0xFEFF
  }

  /** Leading whitespace removed. */
  function TrimStart(s: string): (r: string)
    ensures |r| <= |s| && r == s[|s| - |r|..]
    ensures r == [] || !IsJsWhitespace(r[0])
    ensures forall i :: 0 <= i < |s| - |r| ==> IsJsWhitespace(s[i])
  {
    if s == [] || !IsJsWhitespace(s[0]) then s else TrimStart(s[1..])
  }

  /** Trailing whitespace removed. */
  function TrimEnd(s: string): (r: string)
    ensures |r| <= |s| && r == s[..|r|]
    ensures r == [] || !IsJsWhitespace(r[|r| - 1])
    ensures forall i :: |r| <= i < |s| ==> IsJsWhitespace(s[i])
  {
    if s == [] || !IsJsWhitespace(s[|s| - 1]) then s else TrimEnd(s[..|s| - 1])
  }

  /** `s.trim()` */
  function Trim(s: string): string {
    TrimEnd(TrimStart(s))
  }

  /** `!text.trim()`: the text is empty once trimmed exactly when every character is
      whitespace. */
  lemma BlankIffAllWhitespace(s: string)
    ensures Trim(s) == "" <==> forall i :: 0 <= i < |s| ==> IsJsWhitespace(s[i])
  {
    var t := TrimStart(s);
    if Trim(s) != "" {
      assert t != [] && !IsJsWhitespace(t[0]);
      assert s[|s| - |t|] == t[0];
    }
  }

  /** `comment.author?.email || 'Anonymous'` */
  function AuthorLabel(c: Comment): (r: string)
    ensures Truthy(c.authorEmail) ==> r == c.authorEmail.value
    ensures !Truthy(c.authorEmail) ==> r == "Anonymous"
  {
    OrDefault(c.authorEmail, "Anonymous")
  }

  /** `comments.slice().reverse()`: newest first, the prop itself untouched. */
  function Reverse(cs: seq<Comment>): (r: seq<Comment>)
    ensures |r| == |cs|
    ensures forall i :: 0 <= i < |cs| ==> r[i] == cs[|cs| - 1 - i]
  {
    if cs == [] then [] else Reverse(cs[1..]) + [cs[0]]
  }

  lemma ReverseTwice(cs: seq<Comment>)
    ensures Reverse(Reverse(cs)) == cs
  {
    assert forall i :: 0 <= i < |cs| ==> Reverse(Reverse(cs))[i] == cs[i];
  }

  /** A comment just appended by the parent is shown first. */
  lemma AppendedShownFirst(cs: seq<Comment>, c: Comment)
    ensures Reverse(cs + [c])[0] == c
    ensures Reverse(cs + [c])[1..] == Reverse(cs)
  {
    assert forall i :: 0 <= i < |cs| ==> Reverse(cs + [c])[1..][i] == Reverse(cs)[i];
  }

  datatype CommentsView = CommentsView(heading: nat, emptyNotice: bool, listed: seq<Comment>)

  /** The heading counts the comments; the notice shows only for none. An absent prop
      defaults to the empty list. */
  function View(comments: Option<seq<Comment>>): (v: CommentsView)
    ensures v.heading == |comments.GetOr([])|
    ensures v.emptyNotice <==> comments.GetOr([]) == []
    ensures v.listed == Reverse(comments.GetOr([]))
  {
    var cs := comments.GetOr([]);
    CommentsView(|cs|, cs == [], Reverse(cs))
  }

  class CommentBox {
    var text: string
    var submitting: bool

    constructor ()
      ensures text == "" && !submitting
    {
      text, submitting := "", false;
    }

    method Change(value: string)
      modifies this
      ensures text == value && submitting == old(submitting)
    {
      text := value;
    }

    /** `handleSubmit` up to the request: blank text sends nothing and changes nothing;
        otherwise the text is sent as typed, untrimmed. */
    method Submit() returns (request: Option<string>)
      modifies this
      ensures request.None? <==> Trim(old(text)) == ""
      ensures request.Some? ==> request.value == old(text) && submitting
      ensures request.None? ==> submitting == old(submitting)
      ensures text == old(text)
    {
      if Trim(text) == "" {
        request := None;
      } else {
        submitting := true;
        request := Some(text);
      }
    }

    /** The answer: a created comment goes to the parent's callback and clears the box. */
    method OnResponse(outcome: Response<Comment>) returns (added: Option<Comment>)
      modifies this
      ensures added.Some? <==> outcome.Ok?
      ensures added.Some? ==> added.value == outcome.data
      ensures text == (if outcome.Ok? then "" else old(text))
      ensures !submitting
    {
      if outcome.Ok? {
        added := Some(outcome.data);
        text := "";
      } else {
        added := None;
      }
      submitting := false;
    }
  }
}
