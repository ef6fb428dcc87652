/** The collapsible card that frames each advertisement settings list: its open state,
    the id that ties the toggle button to the content, and what the card shows. */
module InfoCard {
  import opened Wrappers
  import opened Text

  /** `s.replace(/\s+/g, '-')`: every maximal run of white space becomes one hyphen. */
  function ReplaceSpaceRuns(s: string): string
    decreases |s|
  {
    if s == [] then []
    else if IsSpace(s[0]) then
      TrimStartSpec(s[1..]);
      "-" + ReplaceSpaceRuns(TrimStart(s[1..]))
    else [s[0]] + ReplaceSpaceRuns(s[1..])
  }

  /** The result contains no white space at all. */
  lemma {:induction false} ReplaceSpaceRunsHasNoSpace(s: string)
    ensures HasNoSpace(ReplaceSpaceRuns(s))
    decreases |s|
  {
    if s != [] {
      if IsSpace(s[0]) {
        TrimStartSpec(s[1..]);
        ReplaceSpaceRunsHasNoSpace(TrimStart(s[1..]));
        assert !IsSpace('-');
      } else {
        ReplaceSpaceRunsHasNoSpace(s[1..]);
      }
    }
  }

  /** A title without white space is used unchanged. */
  lemma {:induction false} ReplaceSpaceRunsIdentity(s: string)
    requires HasNoSpace(s)
    ensures ReplaceSpaceRuns(s) == s
  {
    if s != [] {
      assert HasNoSpace(s[1..]) by {
        forall i | 0 <= i < |s[1..]| ensures !IsSpace(s[1..][i]) {
          assert s[1..][i] == s[i + 1];
        }
      }
      ReplaceSpaceRunsIdentity(s[1..]);
    }
  }

  /** The content id: `infocard-content-` followed by the title with its white-space
      runs replaced. Applying the replacement again changes nothing. */
  function ContentId(title: string): (id: string)
    ensures |id| >= 17 && id[..17] == "infocard-content-"
    ensures HasNoSpace(id[17..])
  {
    ReplaceSpaceRunsHasNoSpace(title);
    "infocard-content-" + ReplaceSpaceRuns(title)
  }

  /** Replacing the white-space runs of an already replaced title changes nothing. */
  lemma ContentIdStable(title: string)
    ensures ReplaceSpaceRuns(ReplaceSpaceRuns(title)) == ReplaceSpaceRuns(title)
  {
    ReplaceSpaceRunsHasNoSpace(title);
    ReplaceSpaceRunsIdentity(ReplaceSpaceRuns(title));
  }

  /** Trimming a blank prefix off a string that does not start with white space leaves
      exactly that string. */
  lemma {:induction false} TrimStartBlankPrefix(b: string, t: string)
    requires IsBlank(b)
    requires t == [] || !IsSpace(t[0])
    ensures TrimStart(b + t) == t
  {
    if b == [] {
      assert b + t == t;
    } else {
      assert (b + t)[1..] == b[1..] + t;
      TrimStartBlankPrefix(b[1..], t);
    }
  }

  /** A word without white space passes through the replacement unchanged. */
  lemma {:induction false} ReplaceSpaceRunsPrefix(a: string, x: string)
    requires HasNoSpace(a)
    ensures ReplaceSpaceRuns(a + x) == a + ReplaceSpaceRuns(x)
  {
    if a == [] {
      assert a + x == x;
    } else {
      assert (a + x)[0] == a[0];
      assert (a + x)[1..] == a[1..] + x;
      ReplaceSpaceRunsPrefix(a[1..], x);
      assert a == [a[0]] + a[1..];
    }
  }

  /** A whole white-space run, however long, becomes a single hyphen. */
  lemma {:induction false} ReplaceSpaceRunsRun(w: string, t: string)
    requires w != [] && IsBlank(w)
    requires t == [] || !IsSpace(t[0])
    ensures ReplaceSpaceRuns(w + t) == "-" + ReplaceSpaceRuns(t)
  {
    assert (w + t)[0] == w[0];
    assert (w + t)[1..] == w[1..] + t;
    TrimStartBlankPrefix(w[1..], t);
  }

  /** Titles that differ only in the length of one white-space run between a word and
      the rest share a content id: "Ad  Types" and "Ad Types" control the same element. */
  lemma ContentIdCollapsesRuns(a: string, w1: string, w2: string, t: string)
    requires HasNoSpace(a)
    requires w1 != [] && IsBlank(w1) && w2 != [] && IsBlank(w2)
    requires t == [] || !IsSpace(t[0])
    ensures ContentId(a + w1 + t) == ContentId(a + w2 + t)
  {
    assert a + w1 + t == a + (w1 + t);
    assert a + w2 + t == a + (w2 + t);
    ReplaceSpaceRunsPrefix(a, w1 + t);
    ReplaceSpaceRunsPrefix(a, w2 + t);
    ReplaceSpaceRunsRun(w1, t);
    ReplaceSpaceRunsRun(w2, t);
  }

  /** What the content area shows. */
  datatype Content = LoadingText | Children

  /** The rendered card. */
  datatype CardView = CardView(
    toggleLabel: string,
    ariaControls: string,
    contentId: string,
    contentVisible: bool,
    content: Content,
    addNew: Option<bool>)  // the Add New button when shown, carrying its `disabled` flag

  class Card {
    const title: string
    var isOpen: bool

    /** `useState(defaultOpen)` with `defaultOpen = true` when the prop is not passed. */
    constructor (title: string, defaultOpen: Option<bool>)
      ensures this.title == title
      ensures isOpen <==> defaultOpen != Some(false)
    {
      this.title := title;
      isOpen := defaultOpen.GetOr(true);
    }

    /** `toggleOpen`. */
    method ToggleOpen()
      modifies this
      ensures isOpen == !old(isOpen)
    {
      isOpen := !isOpen;
    }

    /** The card for the given props. The button controls exactly the content element;
        its label says "Collapse" while open and "Expand" while closed; the content is
        visible only while open and shows the loading line while loading; the Add New
        button is there only while open and given a handler, and is disabled while
        loading. */
    function Render(hasAddNew: bool, isLoading: bool): (v: CardView)
      reads this
      ensures v.ariaControls == v.contentId == ContentId(title)
      ensures v.toggleLabel == (if isOpen then "Collapse " else "Expand ") + title
      ensures v.contentVisible == isOpen
      ensures v.content == LoadingText <==> isLoading
      ensures v.addNew.Some? <==> isOpen && hasAddNew
      ensures v.addNew.Some? ==> v.addNew.value == isLoading
    {
      var id := ContentId(title);
      CardView((if isOpen then "Collapse" else "Expand") + " " + title, id, id, isOpen,
               if isLoading then LoadingText else Children,
               if isOpen && hasAddNew then Some(isLoading) else None)
    }
  }
}
