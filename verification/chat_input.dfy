/**
 * The message composer: a draft text and a list of staged files. Submitting
 * hands both to the chat page and clears them, but only when the draft has
 * a non-blank character or at least one file is staged; the send button is
 * enabled under the same condition while no reply is pending.
 *
 * The `onSubmit` callback is modelled as the value `Submit` returns: `Some`
 * with the arguments it would be called with, `None` when it is not called.
 */
module ChatInput {
  import opened Types

  /**
   * The code points `String.prototype.trim` strips: ECMAScript's WhiteSpace
   * (tab, vertical tab, form feed, space, no-break space, the byte order
   * mark and the Unicode space separators) and LineTerminator.
   */
  predicate IsWhitespace(ch: char): (ws: bool)
    ensures ch as int < 0x80 ==> (ws <==> ch == ' ' || '\t' <= ch <= '\r')
    ensures ws ==> ch as int <= 0xFEFF
  {
    || ch == '\t' || ch == '\n' || ch == '\U{000B}' || ch == '\U{000C}' || ch == '\r'
    || ch == ' ' || ch == '\U{00A0}' || ch == '\U{1680}'
    || ('\U{2000}' <= ch <= '\U{200A}')
    || ch == '\U{2028}' || ch == '\U{2029}' || ch == '\U{202F}' || ch == '\U{205F}'
    || ch == '\U{3000}' || ch == '\U{FEFF}'
  }

  /** Every character of `s` is whitespace (true of the empty string). */
  ghost predicate Blank(s: string) {
    forall i :: 0 <= i < |s| ==> IsWhitespace(s[i])
  }

  /** `s` without its leading whitespace. */
  function TrimStart(s: string): (r: string)
    ensures |r| <= |s| && r == s[|s| - |r|..]
    ensures Blank(s[..|s| - |r|])
    ensures r == [] || !IsWhitespace(r[0])
  {
    if s == [] || !IsWhitespace(s[0]) then s
    else
      var r := TrimStart(s[1..]);
      assert s[..|s| - |r|] == [s[0]] + s[1..][..|s[1..]| - |r|];
      r
  }

  /** `s` without its trailing whitespace. */
  function TrimEnd(s: string): (r: string)
    ensures |r| <= |s| && r == s[..|r|]
    ensures Blank(s[|r|..])
    ensures r == [] || !IsWhitespace(r[|r| - 1])
  {
    if s == [] || !IsWhitespace(s[|s| - 1]) then s
    else
      var r := TrimEnd(s[..|s| - 1]);
      assert s[|r|..] == s[..|s| - 1][|r|..] + [s[|s| - 1]];
      r
  }

  /** `r` occurs in `s` starting at index `i`. */
  ghost predicate SliceAt(s: string, r: string, i: int) {
    0 <= i <= |s| - |r| && r == s[i..i + |r|]
  }

  /** `r` is the slice of `s` at `i`, and all that lies before and after it is whitespace. */
  ghost predicate TrimmedAt(s: string, r: string, i: int) {
    SliceAt(s, r, i) && Blank(s[..i]) && Blank(s[i + |r|..])
  }

  /**
   * `s.trim()`: the longest slice of `s` that neither starts nor ends with
   * whitespace; what is cut off on either side is all whitespace.
   */
  function Trim(s: string): (r: string)
    ensures exists i :: TrimmedAt(s, r, i)
    ensures r == [] || (!IsWhitespace(r[0]) && !IsWhitespace(r[|r| - 1]))
    ensures r == [] <==> Blank(s)
  {
    var front := TrimStart(s);
    var r := TrimEnd(front);
    TrimCutsBlank(s, front, r);
    r
  }

  /** Trimming the front and then the back leaves a slice with blank margins, empty exactly for a blank string. */
  lemma TrimCutsBlank(s: string, front: string, r: string)
    requires front == TrimStart(s) && r == TrimEnd(front)
    ensures TrimmedAt(s, r, |s| - |front|)
    ensures r == [] <==> Blank(s)
  {
    var i := |s| - |front|;
    assert front == s[i..];
    assert r == front[..|r|];
    SliceOfSuffix(s, i, |r|);
    assert s[i + |r|..] == front[|r|..];
    BlankSplit(s, i);
  }

  lemma SliceOfSuffix(s: string, i: nat, n: nat)
    requires i + n <= |s|
    ensures s[i..][..n] == s[i..i + n]
    ensures s[i..][n..] == s[i + n..]
  {
  }

  /** A string is blank exactly when both sides of any split are. */
  lemma BlankSplit(s: string, k: nat)
    requires k <= |s|
    ensures Blank(s) <==> Blank(s[..k]) && Blank(s[k..])
  {
  }

  /** `message.trim()` is truthy: the draft has a non-whitespace character. */
  predicate HasText(draft: string)
  {
    Trim(draft) != []
  }

  /** The guard of `handleSubmit`: text to send, or at least one staged file. */
  predicate CanSubmit(draft: string, staged: seq<UploadedFile>): (ok: bool)
    ensures ok <==> |staged| > 0 || !Blank(draft)
    ensures staged == [] && Blank(draft) ==> !ok
  {
    HasText(draft) || |staged| > 0
  }

  /** The guard spelled out on characters: one non-whitespace character, or a staged file. */
  lemma CanSubmitIff(draft: string, staged: seq<UploadedFile>)
    ensures CanSubmit(draft, staged) <==> |staged| > 0 || exists i :: 0 <= i < |draft| && !IsWhitespace(draft[i])
  {
  }

  /** The send button's `disabled`: a reply is pending, or there is nothing to send. */
  predicate SendDisabled(isLoading: bool, draft: string, staged: seq<UploadedFile>): (disabled: bool)
    ensures disabled <==> isLoading || !CanSubmit(draft, staged)
  {
    isLoading || (!HasText(draft) && |staged| == 0)
  }

  /**
   * The button is enabled exactly when no reply is pending and `handleSubmit`
   * would fire; `handleSubmit` itself does not look at `isLoading`.
   */
  lemma SendEnabledIff(isLoading: bool, draft: string, staged: seq<UploadedFile>)
    ensures !SendDisabled(isLoading, draft, staged) <==> !isLoading && CanSubmit(draft, staged)
    ensures isLoading ==> SendDisabled(isLoading, draft, staged)
  {
  }

  /** `handleKeyDown` submits on Enter without Shift, and on no other key. */
  predicate SubmitsOnKey(key: string, shiftKey: bool): (submits: bool)
    ensures submits ==> key == "Enter"
    ensures shiftKey ==> !submits
    ensures key == "Enter" && !shiftKey ==> submits
  {
    key == "Enter" && !shiftKey
  }

  /** `prev.filter(file => file.id !== fileId)`. */
  function WithoutId(files: seq<UploadedFile>, fileId: string): (r: seq<UploadedFile>)
    ensures |r| <= |files|
    ensures forall i :: 0 <= i < |r| ==> r[i].id != fileId
    ensures (forall i :: 0 <= i < |files| ==> files[i].id != fileId) ==> r == files
  {
    if files == [] then []
    else (if files[0].id == fileId then [] else [files[0]]) + WithoutId(files[1..], fileId)
  }

  /** Removing keeps exactly the files whose id differs. */
  lemma {:induction false} WithoutIdMembers(files: seq<UploadedFile>, fileId: string, f: UploadedFile)
    ensures f in WithoutId(files, fileId) <==> f in files && f.id != fileId
  {
    if files != [] {
      WithoutIdMembers(files[1..], fileId, f);
      assert files == [files[0]] + files[1..];
    }
  }

  /** Removing keeps the survivors' order: the filter of a concatenation is the concatenation of the filters. */
  lemma {:induction false} WithoutIdConcat(a: seq<UploadedFile>, b: seq<UploadedFile>, fileId: string)
    ensures WithoutId(a + b, fileId) == WithoutId(a, fileId) + WithoutId(b, fileId)
  {
    if a != [] {
      WithoutIdConcat(a[1..], b, fileId);
      var ab := a + b;
      assert ab[0] == a[0] && ab[1..] == a[1..] + b;
      var head := if a[0].id == fileId then [] else [a[0]];
      assert WithoutId(ab, fileId) == head + WithoutId(ab[1..], fileId);
      assert WithoutId(a, fileId) == head + WithoutId(a[1..], fileId);
      var x, y := WithoutId(a[1..], fileId), WithoutId(b, fileId);
      assert head + (x + y) == (head + x) + y;
    } else {
      assert a + b == b;
    }
  }

  /** Staging a file with a new id and then removing that id restores the staged list. */
  lemma StageThenRemove(staged: seq<UploadedFile>, f: UploadedFile)
    requires forall i :: 0 <= i < |staged| ==> staged[i].id != f.id
    ensures WithoutId(staged + [f], f.id) == staged
  {
    WithoutIdConcat(staged, [f], f.id);
    assert WithoutId([f], f.id) == [];
  }

  /** The arguments `onSubmit` is called with: the untrimmed draft and the staged files. */
  datatype Submission = Submission(message: string, files: seq<UploadedFile>)

  /** The composer's state: the `message` draft and the `selectedFiles` list. */
  class Composer {
    var draft: string
    var staged: seq<UploadedFile>

    constructor ()
      ensures draft == [] && staged == []
    {
      draft := [];
      staged := [];
    }

    /** The textarea's `onChange`: the draft becomes what was typed. */
    method Edit(text: string)
      modifies this
      ensures draft == text && staged == old(staged)
    {
      draft := text;
    }

    /** `handleFilesSelected`: the new files go after the staged ones, in order. */
    method AddFiles(files: seq<UploadedFile>)
      modifies this
      ensures staged == old(staged) + files
      ensures |staged| == |old(staged)| + |files|
      ensures draft == old(draft)
    {
      staged := staged + files;
    }

    /** `handleFileRemove`: drops every staged file with that id; an absent id changes nothing. */
    method RemoveFile(fileId: string)
      modifies this
      ensures staged == WithoutId(old(staged), fileId)
      ensures draft == old(draft)
    {
      staged := WithoutId(staged, fileId);
    }

    /** Whether the send button is disabled while `isLoading` is as given. */
    function SendButtonDisabled(isLoading: bool): (disabled: bool)
      reads this
      ensures !disabled <==> !isLoading && CanSubmit(draft, staged)
    {
      SendDisabled(isLoading, draft, staged)
    }

    /**
     * `handleSubmit`: when the guard holds, passes the draft (untrimmed) and
     * the staged files on and clears both; otherwise changes nothing.
     */
    method Submit() returns (sent: Option<Submission>)
      modifies this
      ensures sent.Some? <==> CanSubmit(old(draft), old(staged))
      ensures sent.Some? ==> sent.value == Submission(old(draft), old(staged)) && draft == [] && staged == []
      ensures sent.None? ==> draft == old(draft) && staged == old(staged)
    {
      if CanSubmit(draft, staged) {
        sent := Some(Submission(draft, staged));
        draft := [];
        staged := [];
      } else {
        sent := None;
      }
    }

    /** `handleKeyDown`: Enter without Shift submits; every other key leaves the composer alone. */
    method KeyDown(key: string, shiftKey: bool) returns (sent: Option<Submission>)
      modifies this
      ensures sent.Some? <==> SubmitsOnKey(key, shiftKey) && CanSubmit(old(draft), old(staged))
      ensures sent.Some? ==> sent.value == Submission(old(draft), old(staged)) && draft == [] && staged == []
      ensures sent.None? ==> draft == old(draft) && staged == old(staged)
    {
      if SubmitsOnKey(key, shiftKey) {
        sent := Submit();
      } else {
        sent := None;
      }
    }
  }

  /**
   * A submission clears the staged list, so the files staged after it are
   * exactly the ones added after it.
   */
  method StagingStartsEmptyAfterSubmit(first: seq<UploadedFile>, text: string, later: seq<UploadedFile>)
    returns (sent: Option<Submission>, stagedAfter: seq<UploadedFile>)
    ensures sent.Some? <==> |first| > 0 || HasText(text)
    ensures sent.Some? ==> sent.value == Submission(text, first) && stagedAfter == later
  {
    var composer := new Composer();
    composer.Edit(text);
    composer.AddFiles(first);
    sent := composer.Submit();
    composer.AddFiles(later);
    stagedAfter := composer.staged;
  }
}
