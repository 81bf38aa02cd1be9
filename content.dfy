/**
 * The content script on LinkedIn pages: which pages it acts on, which posts
 * it has already given a button, and what happens to a post's text container
 * as the button switches it between the original text and the summary. A
 * container is its sequence of child nodes, the page's own markup being
 * opaque; finding posts and reading their text are inputs.
 */
module Content {
  import opened Wrappers
  import opened Text
  import opened Config
  import opened Providers

  const SUMMARIZE_LABEL: string := "Summarize"
  const SUMMARIZING_LABEL: string := "Summarizing..."
  const SHOW_ORIGINAL_LABEL: string := "Show Original"
  const RETRY_LABEL: string := "Error - Try Again"
  const NO_POST_TEXT: string := "No post text found"

  /** `isPostPage`: the URL is that of a single post. */
  function IsPostPage(url: string): (b: bool)
    ensures b <==> Contains(url, "/posts/") || Contains(url, "/feed/update/")
  {
    Includes(url, "/posts/") || Includes(url, "/feed/update/")
  }

  /** Any URL with a `/posts/` or a `/feed/update/` segment is a post page. */
  lemma {:induction false} MarkedUrlIsPostPage(prefix: string, marker: string, rest: string)
    requires marker == "/posts/" || marker == "/feed/update/"
    ensures IsPostPage(prefix + marker + rest)
  {
    var url := prefix + marker + rest;
    assert url[|prefix|..|prefix| + |marker|] == marker;
    assert OccursAt(url, marker, |prefix|);
  }

  // ---------------------------------------------------------------------------
  // The children of one post's text container

  /**
   * A child node of a post's text container. `Markup` is the page's own
   * content (opaque), `Card` the `lps-summary` element, `Notice` an error
   * message element, and `Button` an `lps-action-button` with its text and
   * disabled flag. Only a button `addActionButton` created is `live`, that
   * is, carries the click listener; a button re-created from saved markup
   * looks the same but does nothing when clicked.
   */
  datatype Node =
    | Markup(html: string)
    | Card(summary: string)
    | Notice(error: Exception)
    | Button(live: bool, text: string, disabled: bool)

  /**
   * One text container: its children in document order, the markup saved in
   * `dataset.originalContent` (None while nothing is saved), and whether it
   * carries the `lps-summarized` class.
   */
  datatype View = View(children: seq<Node>, saved: Option<seq<Node>>, summarized: bool)

  predicate NoButtons(ns: seq<Node>) {
    forall i :: 0 <= i < |ns| ==> !ns[i].Button?
  }

  predicate NoLiveButtons(ns: seq<Node>) {
    forall i :: 0 <= i < |ns| && ns[i].Button? ==> !ns[i].live
  }

  /** `querySelector('.lps-action-button')`: the position of the first button, if any. */
  function FirstButton(ns: seq<Node>): (r: Option<nat>)
    ensures r.None? <==> NoButtons(ns)
    ensures r.Some? ==> r.value < |ns| && ns[r.value].Button?
    ensures r.Some? ==> forall j :: 0 <= j < r.value ==> !ns[j].Button?
    decreases |ns|
  {
    if ns == [] then None
    else if ns[0].Button? then Some(0)
    else match FirstButton(ns[1..])
      case None => None
      case Some(i) => Some(i + 1)
  }

  /** Behind markup without buttons, the first button is the one that follows it. */
  lemma FirstButtonAfter(m: seq<Node>, b: Node, rest: seq<Node>)
    requires NoButtons(m) && b.Button?
    ensures FirstButton(m + [b] + rest) == Some(|m|)
  {
    var ns := m + [b] + rest;
    assert ns[|m|] == b;
    assert forall j :: 0 <= j < |m| ==> ns[j] == m[j];
  }

  /** The container holds at most one button, and that button is live. */
  predicate OnlyLiveButton(ns: seq<Node>) {
    match FirstButton(ns)
    case None => true
    case Some(i) => ns[i].live && NoButtons(ns[i + 1..])
  }

  /** Markup without buttons followed by one live button and more markup without buttons. */
  lemma OnlyLiveButtonAfter(m: seq<Node>, b: Node, rest: seq<Node>)
    requires b.Button?
    ensures NoButtons(m) ==> (OnlyLiveButton(m + [b] + rest) <==> b.live && NoButtons(rest))
  {
    if NoButtons(m) {
      FirstButtonAfter(m, b, rest);
    }
    assert (m + [b] + rest)[|m| + 1..] == rest;
  }

  /** A container split at its first button. */
  lemma SplitAtFirstButton(ns: seq<Node>)
    requires FirstButton(ns).Some?
    ensures var i := FirstButton(ns).value;
            ns == ns[..i] + [ns[i]] + ns[i + 1..] && NoButtons(ns[..i])
  {
    var i := FirstButton(ns).value;
    assert forall j :: 0 <= j < i ==> ns[..i][j] == ns[j];
  }

  /** A node as `innerHTML` serializes it and assigning it back re-creates it: a button loses its listener. */
  function Inert(n: Node): Node {
    if n.Button? then n.(live := false) else n
  }

  /** The container's markup as the code saves it: every child, buttons included, serialized. */
  function Serialized(ns: seq<Node>): (r: seq<Node>)
    ensures |r| == |ns| && NoLiveButtons(r)
    ensures forall i :: 0 <= i < |ns| ==> r[i] == Inert(ns[i])
  {
    seq(|ns|, i requires 0 <= i < |ns| => Inert(ns[i]))
  }

  /** The container's markup without its buttons. */
  function WithoutButtons(ns: seq<Node>): (r: seq<Node>)
    ensures NoButtons(r)
    ensures NoButtons(ns) ==> r == ns
    decreases |ns|
  {
    if ns == [] then []
    else
      var last := ns[|ns| - 1];
      assert ns == ns[..|ns| - 1] + [last];
      WithoutButtons(ns[..|ns| - 1]) + if last.Button? then [] else [last]
  }

  /** Appending a node that is not a button appends it to the markup without buttons. */
  lemma WithoutButtonsAppend(ns: seq<Node>, n: Node)
    ensures WithoutButtons(ns + [n]) == WithoutButtons(ns) + if n.Button? then [] else [n]
  {
    assert (ns + [n])[..|ns|] == ns;
  }

  /** A button's text and disabled flag do not show in the markup without buttons. */
  lemma {:induction false} WithoutButtonsIgnoresButton(ns: seq<Node>, i: int, b: Node)
    requires 0 <= i < |ns| && ns[i].Button? && b.Button?
    ensures WithoutButtons(ns[i := b]) == WithoutButtons(ns)
    decreases |ns|
  {
    var k := |ns| - 1;
    if i < k {
      WithoutButtonsIgnoresButton(ns[..k], i, b);
      assert ns[i := b] == ns[..k][i := b] + [ns[k]];
      assert ns == ns[..k] + [ns[k]];
      WithoutButtonsAppend(ns[..k][i := b], ns[k]);
      WithoutButtonsAppend(ns[..k], ns[k]);
    } else {
      assert ns[i := b] == ns[..k] + [b];
      assert ns == ns[..k] + [ns[k]];
      WithoutButtonsAppend(ns[..k], b);
      WithoutButtonsAppend(ns[..k], ns[k]);
    }
  }

  /**
   * What every transition keeps: every button in the container is the live
   * one and there is at most one, the saved markup holds no button, and a
   * summarized container still holds its button and has markup saved (so
   * it can be reverted).
   */
  predicate Consistent(v: View) {
    && OnlyLiveButton(v.children)
    && (v.saved.Some? ==> NoButtons(v.saved.value))
    && (v.summarized ==> FirstButton(v.children).Some? && v.saved.Some?)
  }

  /**
   * `addActionButton`: a container without a button gets an enabled, live
   * `Summarize` button after its children; one with a button, even a dead
   * copy, is left as it is.
   */
  function AddButton(v: View): (w: View)
    ensures FirstButton(w.children).Some?
    ensures FirstButton(v.children).Some? ==> w == v
    ensures FirstButton(v.children).None? ==>
              && w.children == v.children + [Button(true, SUMMARIZE_LABEL, false)]
              && w.saved == v.saved && w.summarized == v.summarized
    ensures WithoutButtons(w.children) == WithoutButtons(v.children)
    ensures Consistent(v) ==> Consistent(w)
  {
    if FirstButton(v.children).Some? then v
    else
      var b := Button(true, SUMMARIZE_LABEL, false);
      WithoutButtonsAppend(v.children, b);
      OnlyLiveButtonAfter(v.children, b, []);
      assert v.children + [b] == v.children + [b] + [];
      v.(children := v.children + [b])
  }

  /** How `summarizePost` records the original markup. */
  datatype Saving =
    | SerializeAll  // as the code does: the children serialized, the button included
    | SkipButtons   // the markup without the button

  function Snapshot(saving: Saving, ns: seq<Node>): seq<Node> {
    match saving
    case SerializeAll => Serialized(ns)
    case SkipButtons => WithoutButtons(ns)
  }

  /**
   * `summarizePost` given how the attempt ended, with the original markup
   * recorded as `saving` says. `b` is the first button in the container. It
   * reads `Summarizing...` and is disabled while the provider is asked. On
   * success the markup is saved if nothing is saved yet, and `innerHTML = ''`
   * clears the container, error messages included. The card and `b`, now
   * `Show Original`, are then appended. On failure `b` offers a retry and an
   * error message is appended.
   */
  function SummarizeStep(saving: Saving, v: View, outcome: Result<string, Exception>): View {
    match FirstButton(v.children)
    case None => v
    case Some(i) =>
      var b := v.children[i];
      var loading := v.children[i := b.(text := SUMMARIZING_LABEL, disabled := true)];
      match outcome
      case Ok(summary) =>
        View([Card(summary), b.(text := SHOW_ORIGINAL_LABEL, disabled := false)],
             if v.saved.None? then Some(Snapshot(saving, loading)) else v.saved,
             true)
      case Err(e) =>
        v.(children := v.children[i := b.(text := RETRY_LABEL, disabled := false)] + [Notice(e)])
  }

  /**
   * The container after `summarizePost`, saving the original markup without
   * the button. Without a button nothing happens. On success the container
   * shows only the card and its button, now `Show Original`; the first
   * markup saved stays saved. On failure the button offers a retry, the
   * error is shown last, and nothing else changes.
   */
  function Summarized(v: View, outcome: Result<string, Exception>): (w: View)
    ensures FirstButton(v.children).None? ==> w == v
    ensures v.saved.Some? ==> w.saved == v.saved
    ensures Consistent(v) ==> Consistent(w)
    ensures FirstButton(v.children).Some? ==> FirstButton(w.children).Some?
    ensures FirstButton(v.children).Some? && outcome.Ok? ==>
              var b := v.children[FirstButton(v.children).value];
              && w.summarized
              && w.children == [Card(outcome.value), Button(b.live, SHOW_ORIGINAL_LABEL, false)]
              && w.saved == if v.saved.None? then Some(WithoutButtons(v.children)) else v.saved
    ensures FirstButton(v.children).Some? && outcome.Err? ==>
              var i := FirstButton(v.children).value;
              && w.summarized == v.summarized && w.saved == v.saved
              && |w.children| == |v.children| + 1
              && w.children[i] == Button(v.children[i].live, RETRY_LABEL, false)
              && w.children[|v.children|] == Notice(outcome.error)
              && forall j :: 0 <= j < |v.children| && j != i ==> w.children[j] == v.children[j]
  {
    match FirstButton(v.children)
    case None => v
    case Some(_) =>
      match outcome
      case Ok(summary) => SucceededStep(v, summary); SummarizeStep(SkipButtons, v, outcome)
      case Err(e) => FailedStep(v, e); SummarizeStep(SkipButtons, v, outcome)
  }

  /** The proof-carrying `Summarized` is the intended summarize step. */
  lemma SummarizedIsStep(v: View, outcome: Result<string, Exception>)
    ensures Summarized(v, outcome) == SummarizeStep(SkipButtons, v, outcome)
  {
  }

  lemma SucceededStep(v: View, summary: string)
    requires FirstButton(v.children).Some?
    ensures var w := SummarizeStep(SkipButtons, v, Ok(summary));
            var b := v.children[FirstButton(v.children).value];
            && w.summarized
            && w.children == [Card(summary), Button(b.live, SHOW_ORIGINAL_LABEL, false)]
            && w.saved == (if v.saved.None? then Some(WithoutButtons(v.children)) else v.saved)
            && FirstButton(w.children).Some?
            && (Consistent(v) ==> Consistent(w))
  {
    var i := FirstButton(v.children).value;
    var b := v.children[i];
    WithoutButtonsIgnoresButton(v.children, i, b.(text := SUMMARIZING_LABEL, disabled := true));
    var c := b.(text := SHOW_ORIGINAL_LABEL, disabled := false);
    FirstButtonAfter([Card(summary)], c, []);
    OnlyLiveButtonAfter([Card(summary)], c, []);
    assert [Card(summary)] + [c] + [] == [Card(summary), c];
    if Consistent(v) {
      OnlyLiveButtonAfter(v.children[..i], b, v.children[i + 1..]);
      SplitAtFirstButton(v.children);
    }
  }

  lemma FailedStep(v: View, e: Exception)
    requires FirstButton(v.children).Some?
    ensures var w := SummarizeStep(SkipButtons, v, Err(e));
            var i := FirstButton(v.children).value;
            && w.summarized == v.summarized && w.saved == v.saved
            && w.children == v.children[i := Button(v.children[i].live, RETRY_LABEL, false)] + [Notice(e)]
            && FirstButton(w.children) == Some(i)
            && (Consistent(v) ==> Consistent(w))
  {
    var i := FirstButton(v.children).value;
    var b := v.children[i];
    var c := b.(text := RETRY_LABEL, disabled := false);
    var rest := v.children[i + 1..];
    SplitAtFirstButton(v.children);
    assert v.children[i := c] + [Notice(e)] == v.children[..i] + [c] + (rest + [Notice(e)]);
    FirstButtonAfter(v.children[..i], c, rest + [Notice(e)]);
    OnlyLiveButtonAfter(v.children[..i], c, rest + [Notice(e)]);
    OnlyLiveButtonAfter(v.children[..i], b, rest);
    if NoButtons(rest) {
      assert NoButtons(rest + [Notice(e)]);
    }
  }

  /** `summarizePost` as the code has it: the saved markup holds the serialized button. */
  function SummarizedAsWritten(v: View, outcome: Result<string, Exception>): (w: View)
    ensures FirstButton(v.children).None? ==> w == v
    ensures FirstButton(v.children).Some? && outcome.Ok? && v.saved.None? ==>
              var i := FirstButton(v.children).value;
              && w.saved == Some(Serialized(v.children[i := v.children[i].(text := SUMMARIZING_LABEL, disabled := true)]))
              && w.saved.value[i] == Button(false, SUMMARIZING_LABEL, true)
    ensures outcome.Err? || v.saved.Some? ==> w == Summarized(v, outcome)
    ensures w.children == Summarized(v, outcome).children && w.summarized == Summarized(v, outcome).summarized
  {
    SummarizeStep(SerializeAll, v, outcome)
  }

  /**
   * `revertToOriginal`, with the button the click handler found: with saved
   * markup, the container's children become that markup followed by the
   * button, now an enabled `Summarize`; it loses the summarized mark. With
   * nothing saved nothing changes. (Without a button `appendChild(null)`
   * throws once the markup is restored, before anything else changes.)
   */
  function Reverted(v: View): (w: View)
    ensures v.saved.None? ==> w == v
    ensures v.saved.Some? && FirstButton(v.children).Some? ==>
              var b := v.children[FirstButton(v.children).value];
              && w.children == v.saved.value + [Button(b.live, SUMMARIZE_LABEL, false)]
              && !w.summarized && w.saved == v.saved
    ensures v.saved.Some? && FirstButton(v.children).None? ==> w == v.(children := v.saved.value)
    ensures Consistent(v) ==> Consistent(w)
    ensures FirstButton(v.children).Some? ==> FirstButton(w.children).Some?
  {
    match v.saved
    case None => v
    case Some(original) =>
      match FirstButton(v.children)
      case None => v.(children := original)
      case Some(i) =>
        var b := v.children[i].(text := SUMMARIZE_LABEL, disabled := false);
        assert original + [b] == original + [b] + [];
        OnlyLiveButtonAfter(original, b, []);
        assert (original + [b])[|original|] == b;
        View(original + [b], v.saved, false)
  }

  /** `toggleSummary`, the click handler: revert a summarized container, summarize any other. */
  function Toggled(v: View, outcome: Result<string, Exception>): (w: View)
    ensures Consistent(v) ==> Consistent(w)
    ensures Consistent(v) && v.summarized ==> !w.summarized
    ensures !v.summarized && FirstButton(v.children).Some? ==> (w.summarized <==> outcome.Ok?)
    ensures FirstButton(v.children).Some? ==> FirstButton(w.children).Some?
  {
    if v.summarized then Reverted(v) else Summarized(v, outcome)
  }

  /**
   * `toggleSummary` as the code has it. It differs from `Toggled` only on the
   * first successful summary, and there only in the markup it saves.
   */
  function ToggledAsWritten(v: View, outcome: Result<string, Exception>): (w: View)
    ensures v.summarized || outcome.Err? || v.saved.Some? ==> w == Toggled(v, outcome)
    ensures w.children == Toggled(v, outcome).children && w.summarized == Toggled(v, outcome).summarized
  {
    if v.summarized then Reverted(v) else SummarizedAsWritten(v, outcome)
  }

  /** Adding the button twice leaves one button: the second call changes nothing. */
  lemma AddButtonOnce(v: View)
    ensures AddButton(AddButton(v)) == AddButton(v)
  {
  }

  /** The container after one `summarizePost` per outcome, in order. */
  function SummarizedAll(v: View, outcomes: seq<Result<string, Exception>>): View
    decreases |outcomes|
  {
    if outcomes == [] then v else SummarizedAll(Summarized(v, outcomes[0]), outcomes[1..])
  }

  /** However many times a container is summarized, the first saved markup stays saved. */
  lemma {:induction false} OriginalSavedOnce(v: View, outcomes: seq<Result<string, Exception>>)
    requires v.saved.Some?
    ensures SummarizedAll(v, outcomes).saved == v.saved
    decreases |outcomes|
  {
    if outcomes != [] {
      OriginalSavedOnce(Summarized(v, outcomes[0]), outcomes[1..]);
    }
  }

  /** The container after one click per outcome, in order. */
  function ToggledAll(v: View, outcomes: seq<Result<string, Exception>>): View
    decreases |outcomes|
  {
    if outcomes == [] then v else ToggledAll(Toggled(v, outcomes[0]), outcomes[1..])
  }

  /**
   * Whatever the clicks and however each attempt ends, a container that had
   * its button keeps exactly one button, and that button is live: the post
   * can always be summarized again or reverted.
   */
  lemma {:induction false} ClicksKeepLiveButton(v: View, outcomes: seq<Result<string, Exception>>)
    requires Consistent(v) && FirstButton(v.children).Some?
    ensures var w := ToggledAll(v, outcomes);
            && Consistent(w) && FirstButton(w.children).Some?
            && w.children[FirstButton(w.children).value].live
    decreases |outcomes|
  {
    if outcomes != [] {
      ClicksKeepLiveButton(Toggled(v, outcomes[0]), outcomes[1..]);
    }
  }

  /**
   * Clicking twice, the first click succeeding, brings back the markup shown
   * before, followed by one enabled `Summarize` button.
   */
  lemma ToggleTwiceRestores(m: seq<Node>, text: string, disabled: bool, summary: string, later: Result<string, Exception>)
    requires NoButtons(m)
    ensures var v := View(m + [Button(true, text, disabled)], None, false);
            Toggled(Toggled(v, Ok(summary)), later) == View(m + [Button(true, SUMMARIZE_LABEL, false)], Some(m), false)
  {
    var b := Button(true, text, disabled);
    FirstButtonAfter(m, b, []);
    assert m + [b] + [] == m + [b];
    WithoutButtonsAppend(m, b);
    var c := Button(true, SHOW_ORIGINAL_LABEL, false);
    FirstButtonAfter([Card(summary)], c, []);
    assert [Card(summary)] + [c] + [] == [Card(summary), c];
    var v := View(m + [b], None, false);
    var w1 := Toggled(v, Ok(summary));
    assert FirstButton(v.children) == Some(|m|);
    assert WithoutButtons(v.children) == m;
    assert w1 == View([Card(summary), c], Some(m), true);
    var w2 := Toggled(w1, later);
    assert w2 == Reverted(w1);
    assert FirstButton(w1.children) == Some(1);
    assert w1.children[1] == c;
    assert Reverted(w1) == View(m + [Button(true, SUMMARIZE_LABEL, false)], Some(m), false);
  }

  /**
   * As written, the same two clicks leave a disabled `Summarizing...` copy
   * of the button in front of the live one. A third click that succeeds then
   * acts on the copy: it clears the live button away and leaves the copy,
   * which has no listener, as the container's only button. The post can
   * never be reverted.
   */
  lemma StaleCopyStrandsPost(m: seq<Node>, text: string, disabled: bool, s1: string, later: Result<string, Exception>, s2: string)
    requires NoButtons(m)
    ensures var v := View(m + [Button(true, text, disabled)], None, false);
            var v2 := ToggledAsWritten(ToggledAsWritten(v, Ok(s1)), later);
            var v3 := ToggledAsWritten(v2, Ok(s2));
            && v2.children == m + [Button(false, SUMMARIZING_LABEL, true), Button(true, SUMMARIZE_LABEL, false)]
            && v3.summarized && NoLiveButtons(v3.children)
  {
    var b := Button(true, text, disabled);
    FirstButtonAfter(m, b, []);
    assert m + [b] + [] == m + [b];
    var loading := (m + [b])[|m| := b.(text := SUMMARIZING_LABEL, disabled := true)];
    assert Serialized(loading) == m + [Button(false, SUMMARIZING_LABEL, true)];
    var v := View(m + [b], None, false);
    var c := Button(true, SHOW_ORIGINAL_LABEL, false);
    var v1 := ToggledAsWritten(v, Ok(s1));
    assert v1 == View([Card(s1), c], Some(m + [Button(false, SUMMARIZING_LABEL, true)]), true);
    FirstButtonAfter([Card(s1)], c, []);
    assert [Card(s1)] + [c] + [] == [Card(s1), c];
    var copy := Button(false, SUMMARIZING_LABEL, true);
    var live := Button(true, SUMMARIZE_LABEL, false);
    var v2 := ToggledAsWritten(v1, later);
    assert v2 == View(m + [copy, live], v1.saved, false);
    FirstButtonAfter(m, copy, [live]);
    assert m + [copy] + [live] == m + [copy, live];
    var v3 := ToggledAsWritten(v2, Ok(s2));
    assert v3.children == [Card(s2), Button(false, SHOW_ORIGINAL_LABEL, false)];
  }

  /** A failed attempt keeps the summarized mark and the markup, and shows the error after it. */
  lemma FailureKeepsView(v: View, e: Exception)
    requires FirstButton(v.children).Some?
    ensures Summarized(v, Err(e)).summarized == v.summarized
    ensures WithoutButtons(Summarized(v, Err(e)).children) == WithoutButtons(v.children) + [Notice(e)]
  {
    var i := FirstButton(v.children).value;
    var ns := v.children[i := v.children[i].(text := RETRY_LABEL, disabled := false)];
    WithoutButtonsIgnoresButton(v.children, i, ns[i]);
    WithoutButtonsAppend(ns, Notice(e));
  }

  /**
   * How a summarize attempt ends: blank post text fails with
   * `No post text found` before any provider is created; otherwise the
   * provider chosen by the settings is asked.
   */
  function SummaryAttempt(settings: Settings, postText: string, pageUrl: string, server: Request -> HttpResponse)
    : (r: Result<string, Exception>)
    ensures AllWhitespace(postText) ==> r == Err(Error(NO_POST_TEXT))
    ensures !AllWhitespace(postText) && settings.provider !in KNOWN_PROVIDERS ==>
              r == Err(Error("Unknown provider: " + settings.provider))
    ensures !AllWhitespace(postText) ==> r == SummarizeWith(settings, postText, pageUrl, server)
    ensures r.Ok? ==> !AllWhitespace(postText) && IsTrimmed(r.value) && ExtractResponse(r.value) == r.value
  {
    TrimEmptyIffBlank(postText);
    if Trim(postText) == "" then Err(Error(NO_POST_TEXT))
    else SummarizeWith(settings, postText, pageUrl, server)
  }

  /** A blank post leaves the container unsummarized with a retry button and the error shown. */
  lemma BlankPostFails(v: View, settings: Settings, postText: string, pageUrl: string, server: Request -> HttpResponse)
    requires FirstButton(v.children).Some? && !v.summarized && AllWhitespace(postText)
    ensures var w := Summarized(v, SummaryAttempt(settings, postText, pageUrl, server));
            var i := FirstButton(v.children).value;
            && !w.summarized && w.children[i].text == RETRY_LABEL && !w.children[i].disabled
            && w.children[|w.children| - 1] == Notice(Error(NO_POST_TEXT))
  {
  }

  // ---------------------------------------------------------------------------
  // The objects

  /** A post's text container in the page. */
  class PostContainer {
    var children: seq<Node>
    var saved: Option<seq<Node>>
    var summarized: bool

    function State(): View
      reads this
    {
      View(children, saved, summarized)
    }

    /** A container as the page renders it, before the script touches it. */
    constructor (markup: string)
      ensures State() == View([Markup(markup)], None, false)
    {
      children := [Markup(markup)];
      saved := None;
      summarized := false;
    }

    /** `addActionButton`. */
    method AddActionButton()
      modifies this
      ensures State() == AddButton(old(State()))
    {
      if FirstButton(children).Some? {
        return;
      }
      children := children + [Button(true, SUMMARIZE_LABEL, false)];
    }

    /** `revertToOriginal`, given the first button in the container as the click handler finds it. */
    method RevertToOriginal()
      modifies this
      ensures State() == Reverted(old(State()))
    {
      var button := FirstButton(children);
      if saved.Some? {
        var restored := saved.value;
        if button.None? {
          children := restored;
          return;
        }
        var b := children[button.value];
        children := restored + [b.(text := SUMMARIZE_LABEL, disabled := false)];
        summarized := false;
      }
    }

    /**
     * What `summarizePost` does to the container around the provider call
     * that ended with `outcome`: the first button reads `Summarizing...` and
     * is disabled during the call; then the summary or the error is shown.
     * The original markup is saved without the button.
     */
    method ShowAttempt(outcome: Result<string, Exception>)
      modifies this
      ensures State() == Summarized(old(State()), outcome)
    {
      ghost var v := State();
      SummarizedIsStep(v, outcome);
      var found := FirstButton(children);
      if found.None? {
        return;
      }
      var i := found.value;
      var button := children[i].(text := SUMMARIZING_LABEL, disabled := true);
      children := children[i := button];
      match outcome
      case Ok(summary) =>
        if saved.None? {
          saved := Some(WithoutButtons(children));
        }
        children := [Card(summary)];
        button := button.(text := SHOW_ORIGINAL_LABEL, disabled := false);
        children := children + [button];
        summarized := true;
      case Err(e) =>
        button := button.(text := RETRY_LABEL, disabled := false);
        children := children[i := button] + [Notice(e)];
    }
  }

  /** What the script has scheduled on a timer when a handler returns. */
  datatype Followup = Nothing | SetupLater | SummarizeLater

  /** The script's module-level state. */
  class ContentScript {
    var settings: Settings
    var processedPosts: set<string>
    var currentUrl: string

    /** The script as it starts on a page: `loadSettings` reads storage, with its defaults. */
    constructor (stored: StoredSettings, url: string)
      ensures settings == LoadSettings(stored) && processedPosts == {} && currentUrl == url
    {
      settings := LoadSettings(stored);
      processedPosts := {};
      currentUrl := url;
    }

    /**
     * `setupPostProcessor`, given the post's text container the page lookup
     * found (null when none) and that post's id. Without a post it retries
     * later; a post seen before is left alone; a new post is recorded, gets
     * its button, and is summarized later when auto-summarize is on.
     */
    method SetupPostProcessor(post: PostContainer?, postId: string) returns (next: Followup)
      modifies this`processedPosts, post
      ensures post == null ==> processedPosts == old(processedPosts) && next == SetupLater
      ensures post != null && postId in old(processedPosts) ==>
                processedPosts == old(processedPosts) && unchanged(post) && next == Nothing
      ensures post != null && postId !in old(processedPosts) ==>
                && processedPosts == old(processedPosts) + {postId}
                && post.State() == AddButton(old(post.State()))
                && next == if settings.autoSummarize then SummarizeLater else Nothing
    {
      if post == null {
        return SetupLater;
      }
      if postId in processedPosts {
        return Nothing;
      }
      processedPosts := processedPosts + {postId};
      post.AddActionButton();
      next := if settings.autoSummarize then SummarizeLater else Nothing;
    }

    /**
     * `summarizePost` on `post`, whose text reads `postText`, on the page at
     * `pageUrl`; `server` answers the provider's request. The original
     * markup is saved without the button.
     */
    method SummarizePost(post: PostContainer, postText: string, pageUrl: string, server: Request -> HttpResponse)
      modifies post
      ensures post.State() == Summarized(old(post.State()), SummaryAttempt(settings, postText, pageUrl, server))
    {
      if FirstButton(post.children).None? {
        return;
      }
      var outcome := SummaryAttempt(settings, postText, pageUrl, server);
      post.ShowAttempt(outcome);
    }

    /** `toggleSummary`, the button's click handler. */
    method ToggleSummary(post: PostContainer, postText: string, pageUrl: string, server: Request -> HttpResponse)
      modifies post
      ensures post.State() == Toggled(old(post.State()), SummaryAttempt(settings, postText, pageUrl, server))
      ensures Consistent(old(post.State())) ==> Consistent(post.State())
    {
      if post.summarized {
        post.RevertToOriginal();
      } else {
        SummarizePost(post, postText, pageUrl, server);
      }
    }

    /**
     * The page observer's callback, `href` being the page's URL now. A new
     * URL is recorded, forgets every processed post, and on a post page
     * schedules a fresh setup; the same URL changes nothing.
     */
    method OnPageMutation(href: string) returns (next: Followup)
      modifies this`currentUrl, this`processedPosts
      ensures href != old(currentUrl) ==>
                currentUrl == href && processedPosts == {} && next == (if IsPostPage(href) then SetupLater else Nothing)
      ensures href == old(currentUrl) ==>
                currentUrl == old(currentUrl) && processedPosts == old(processedPosts) && next == Nothing
    {
      next := Nothing;
      if href != currentUrl {
        currentUrl := href;
        processedPosts := {};
        if IsPostPage(href) {
          next := SetupLater;
        }
      }
    }
  }
}
