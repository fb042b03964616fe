/** The options page's editing of the comment pool: adding a trimmed new comment,
    removing one by position, and restoring the built-in five. Each is a function
    from the page's settings state to the next one. */
module OptionsPage {
  import opened Types
  import opened OrderedSet

  /** The settings the options page edits before saving them. */
  datatype PageSettings = PageSettings(comments: seq<string>, isEnabled: bool)

  /** The ECMAScript WhiteSpace and LineTerminator characters, which `trim` removes. */
  predicate IsSpace(c: char) {
    || c in {'\t', '\n', '\U{000B}', '\U{000C}', '\r', ' ', '\U{00A0}', '\U{1680}',
             '\U{2028}', '\U{2029}', '\U{202F}', '\U{205F}', '\U{3000}', '\U{FEFF}'}
    || '\U{2000}' <= c <= '\U{200A}'
  }

  /** `s` without its leading white space. */
  function TrimStart(s: string): (r: string)
    ensures |r| <= |s| && r == s[|s| - |r|..]
    ensures forall i :: 0 <= i < |s| - |r| ==> IsSpace(s[i])
    ensures r == [] || !IsSpace(r[0])
  {
    if s != [] && IsSpace(s[0]) then TrimStart(s[1..]) else s
  }

  /** `s` without its trailing white space. */
  function TrimEnd(s: string): (r: string)
    ensures |r| <= |s| && r == s[..|r|]
    ensures forall i :: |r| <= i < |s| ==> IsSpace(s[i])
    ensures r == [] || !IsSpace(r[|r| - 1])
  {
    if s != [] && IsSpace(s[|s| - 1]) then TrimEnd(s[..|s| - 1]) else s
  }

  /** `s.trim()`. */
  function Trim(s: string): string {
    TrimEnd(TrimStart(s))
  }

  /** The trimmed text is the input's slice that starts after the leading white space. */
  lemma TrimSlice(s: string)
    ensures var r, i := Trim(s), |s| - |TrimStart(s)|;
      && 0 <= i <= |s| - |r| && r == s[i..i + |r|]
      && (forall k :: 0 <= k < i ==> IsSpace(s[k]))
  {
    var t := TrimStart(s);
    var i := |s| - |t|;
    assert t == s[i..] && Trim(s) == t[..|Trim(s)|];
  }

  /** The trimmed text neither starts nor ends with white space. */
  lemma TrimBorders(s: string)
    ensures var r := Trim(s);
      r == [] || (!IsSpace(r[0]) && !IsSpace(r[|r| - 1]))
  {
    var t := TrimStart(s);
    var r := TrimEnd(t);
    if r != [] {
      assert r[0] == t[0];
    }
  }

  /** What follows the trimmed text in the input is white space. */
  lemma TrimTrailing(s: string)
    ensures var r, i := Trim(s), |s| - |TrimStart(s)|;
      forall k :: i + |r| <= k < |s| ==> IsSpace(s[k])
  {
    var t := TrimStart(s);
    var r := TrimEnd(t);
    var i := |s| - |t|;
    assert t == s[i..];
    forall k | i + |r| <= k < |s| ensures IsSpace(s[k]) {
      assert s[k] == t[k - i];
    }
  }

  /** The result of addComment: the next settings and the next content of the input box. */
  datatype Added = Added(settings: PageSettings, newComment: string)

  /** addComment: appends the trimmed input when it is not blank and not yet in the
      pool, and then clears the input box; otherwise nothing changes. */
  function AddComment(st: PageSettings, newComment: string): (r: Added)
    ensures r.settings.isEnabled == st.isEnabled
    ensures st.comments <= r.settings.comments
  {
    var t := Trim(newComment);
    if t != "" && t !in st.comments then
      Added(st.(comments := st.comments + [t]), "")
    else
      Added(st, newComment)
  }

  /** Blank input, or input whose trimmed form is already present, changes nothing. */
  lemma AddCommentRejects(st: PageSettings, newComment: string)
    requires Trim(newComment) == "" || Trim(newComment) in st.comments
    ensures AddComment(st, newComment) == Added(st, newComment)
  {
  }

  /** Otherwise the trimmed input is appended at the end, everything before it and the
      enabled flag stay as they were, and the pool grows by exactly one. */
  lemma AddCommentAppends(st: PageSettings, newComment: string)
    requires Trim(newComment) != "" && Trim(newComment) !in st.comments
    ensures var r := AddComment(st, newComment).settings;
      && |r.comments| == |st.comments| + 1
      && r.comments[..|st.comments|] == st.comments
      && r.comments[|st.comments|] == Trim(newComment)
      && r.isEnabled == st.isEnabled
  {
  }

  /** A pool without repeats stays without repeats. */
  lemma AddCommentKeepsDistinct(st: PageSettings, newComment: string)
    requires NoDuplicates(st.comments)
    ensures NoDuplicates(AddComment(st, newComment).settings.comments)
  {
    var t := Trim(newComment);
    if t != "" && t !in st.comments {
      var c := st.comments + [t];
      forall i, j | 0 <= i < j < |c| ensures c[i] != c[j] {
        if j == |st.comments| {
          assert c[i] == st.comments[i];
        }
      }
    }
  }

  /** `s.filter((_, i) => i !== index)`, scanning from position `from`. */
  function WithoutIndex(s: seq<string>, index: int, from: nat): seq<string>
    decreases |s| - from
  {
    if from >= |s| then []
    else (if from != index then [s[from]] else []) + WithoutIndex(s, index, from + 1)
  }

  /** The filter drops the element at `index` if the scan reaches it, and keeps every
      other element in order. */
  lemma {:induction false} WithoutIndexFrom(s: seq<string>, index: int, from: nat)
    requires from <= |s|
    ensures WithoutIndex(s, index, from) ==
      if from <= index < |s| then s[from..index] + s[index + 1..] else s[from..]
    decreases |s| - from
  {
    if from < |s| {
      WithoutIndexFrom(s, index, from + 1);
      if from == index {
        assert s[from..index] == [];
      } else if from < index < |s| {
        assert s[from..index] == [s[from]] + s[from + 1..index];
      } else {
        assert s[from..] == [s[from]] + s[from + 1..];
      }
    }
  }

  /** removeComment. */
  function RemoveComment(st: PageSettings, index: int): PageSettings {
    st.(comments := WithoutIndex(st.comments, index, 0))
  }

  /** removeComment deletes exactly the comment at `index`, keeping the others in
      order; an index out of range changes nothing. */
  lemma RemoveCommentDeletes(st: PageSettings, index: int)
    ensures var r := RemoveComment(st, index);
      && r.isEnabled == st.isEnabled
      && (0 <= index < |st.comments| ==>
            r.comments == st.comments[..index] + st.comments[index + 1..])
      && (!(0 <= index < |st.comments|) ==> r.comments == st.comments)
  {
    WithoutIndexFrom(st.comments, index, 0);
    assert st.comments[0..] == st.comments;
  }

  /** The five comments the options page restores. */
  const PageDefaultComments: seq<string> := [
    "응원합니다!",
    "좋은 일에 함께할 수 있어 기쁩니다.",
    "의미있는 활동이네요!",
    "작은 힘이지만 보탭니다.",
    "함께 만들어가요!"
  ]

  /** resetToDefault: after the user confirms, the pool is the five built-in comments. */
  function ResetToDefault(st: PageSettings, confirmed: bool): PageSettings {
    if confirmed then st.(comments := PageDefaultComments) else st
  }

  /** The restored pool is the engine's built-in pool; the flag is untouched, and
      nothing changes without confirmation. */
  lemma ResetRestoresEnginePool(st: PageSettings, confirmed: bool)
    ensures var r := ResetToDefault(st, confirmed);
      && r.isEnabled == st.isEnabled
      && (confirmed ==> r.comments == DefaultComments)
      && (!confirmed ==> r == st)
  {
  }
}
