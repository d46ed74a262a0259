/**
 * The stateful part of the home page: the industry-showcase modal (which
 * catalogue item, if any, is open, and how the arrows, the keyboard and the
 * close actions move between items) and the "Book Strategy" buttons of the
 * three process stages. Rendering and animation are not modelled.
 */
module Home {
  import opened Wrappers

  /** One card of the industry showcase (the `ShowcaseItem` record). */
  datatype ShowcaseItem = ShowcaseItem(
    id: string,
    name: string,
    category: string,
    image: string,
    stat: string,
    description: string)

  /** The fixed catalogue of industries shown as cards, in display order. */
  const INDUSTRIES: seq<ShowcaseItem> := [
    ShowcaseItem("1", "Luxury Real Estate", "Lead Gen & Branding",
      "https://images.unsplash.com/photo-1600607686527-6fb886090705?auto=format&fit=crop&w=800&q=80",
      "200% Growth",
      "Property listing websites, video walkthroughs, and targeted ad campaigns for high-net-worth investors."),
    ShowcaseItem("2", "Web3 & Crypto", "Community Growth",
      "https://images.unsplash.com/photo-1639762681485-074b7f938ba0?auto=format&fit=crop&w=800&q=80",
      "10k+ Members",
      "Strategies for NFT marketplaces and token launches. Discord & Twitter community management."),
    ShowcaseItem("3", "SaaS & Tech", "Product Marketing",
      "https://images.unsplash.com/photo-1551288049-bebda4e38f71?auto=format&fit=crop&w=800&q=80",
      "35% CPA Drop",
      "Conversion-optimized websites and free trial funnels. Email drip campaigns and retention strategies."),
    ShowcaseItem("4", "Bespoke Tourism", "Hospitality",
      "https://images.unsplash.com/photo-1571896349842-6e5a513e610a?auto=format&fit=crop&w=800&q=80",
      "90% Booked",
      "Marketing international wellness retreats and luxury resorts. Integrated booking systems and influencer trips."),
    ShowcaseItem("5", "E-Commerce & Fashion", "Retail Scale",
      "https://images.unsplash.com/photo-1483985988355-763728e1935b?auto=format&fit=crop&w=800&q=80",
      "98% Sell-Out",
      "Shopify/WooCommerce development. Dynamic product ads and cart recovery automation for fashion brands."),
    ShowcaseItem("6", "Yoga & Spirituality", "Wellness",
      "https://images.unsplash.com/photo-1545205597-3d9d02c29597?auto=format&fit=crop&w=800&q=80",
      "Global Reach",
      "Brand building for yoga schools and spiritual coaches. Course launches and retreat marketing."),
    ShowcaseItem("7", "Private Healthcare", "Trust Building",
      "https://images.unsplash.com/photo-1538108149393-fbbd81895907?auto=format&fit=crop&w=800&q=80",
      "Patient Trust",
      "Local SEO and reputation management for clinics, dentists, and hospitals. Appointment booking integrations."),
    ShowcaseItem("8", "Pet Care", "Niche Retail",
      "https://images.unsplash.com/photo-1543466835-00a7907e9de1?auto=format&fit=crop&w=800&q=80",
      "High LTV",
      "Marketing for pet products and vet clinics. Emotional storytelling and viral content strategies."),
    ShowcaseItem("9", "Food & Dining", "Local SEO",
      "https://images.unsplash.com/photo-1517248135467-4c7edcad34c4?auto=format&fit=crop&w=800&q=80",
      "Footfall",
      "Social media management and photography for restaurants, cafes, and cloud kitchens.")
  ]

  /** The names of the three process stages, each with its own "Book Strategy" button. */
  const PROCESS_STAGES: seq<string> :=
    ["Discovery & Strategy", "Execution & Launch", "Optimization & Scale"]

  /** No two items of the catalogue share an id. */
  predicate DistinctIds(cat: seq<ShowcaseItem>) {
    forall i, j :: 0 <= i < j < |cat| ==> cat[i].id != cat[j].id
  }

  /** What navigation relies on: a non-empty catalogue whose ids identify its items. */
  predicate WellFormed(cat: seq<ShowcaseItem>) {
    |cat| > 0 && DistinctIds(cat)
  }

  lemma IndustriesWellFormed()
    ensures |INDUSTRIES| == 9
    ensures WellFormed(INDUSTRIES)
    ensures forall k :: 0 <= k < |INDUSTRIES| ==> INDUSTRIES[k].id == [('1' as int + k) as char]
  {
  }

  datatype Direction = Next | Prev

  // ---------------------------------------------------------------------------
  // Navigation, as pure functions of the catalogue and the current selection
  // ---------------------------------------------------------------------------

  /**
   * `Array.prototype.findIndex` by id: the position of the first item whose id
   * is `id`, or -1 when there is none.
   */
  function FirstIndex(cat: seq<ShowcaseItem>, id: string): (r: int)
    ensures -1 <= r < |cat|
    ensures 0 <= r ==> cat[r].id == id && forall j :: 0 <= j < r ==> cat[j].id != id
    ensures r == -1 ==> forall j :: 0 <= j < |cat| ==> cat[j].id != id
  {
    if |cat| == 0 then -1
    else if cat[0].id == id then 0
    else
      var r := FirstIndex(cat[1..], id);
      if r == -1 then -1 else r + 1
  }

  /**
   * JavaScript's `%` by a positive divisor: the remainder is smaller than the
   * divisor in size and takes the sign of the dividend. Its exact value is
   * stated for dividends in (-n, 2n), the range navigation produces.
   */
  function JsRem(a: int, n: int): (r: int)
    requires n > 0
    ensures -n < r < n
    ensures a >= 0 ==> r >= 0
    ensures a <= 0 ==> r <= 0
    ensures 0 <= a < 2 * n ==> r == if a < n then a else a - n
    ensures -n < a < 0 ==> r == a
  {
    ModBelowTwice(if a >= 0 && a < 2 * n then a else 0, n);
    ModBelowTwice(if -n < a < 0 then -a else 0, n);
    if a >= 0 then a % n else -((-a) % n)
  }

  /**
   * The index `navigateIndustry` moves to from index `current` (possibly -1,
   * "not found") in a catalogue of `n` items: `(current + 1) % n` for next and
   * `(current - 1 + n) % n` for prev, with JavaScript's remainder.
   */
  function StepIndex(current: int, n: int, dir: Direction): (r: int)
    requires n > 0 && -1 <= current < n
    ensures 0 <= r < n
    ensures 0 <= current && dir == Next ==> r == if current == n - 1 then 0 else current + 1
    ensures 0 <= current && dir == Prev ==> r == if current == 0 then n - 1 else current - 1
  {
    if dir == Next then JsRem(current + 1, n) else JsRem(current - 1 + n, n)
  }

  /**
   * The selection after `navigateIndustry(dir)`: nothing when nothing is
   * selected, otherwise the item one step away from the selected item's
   * position (found by id), wrapping around at either end.
   */
  function Navigate(cat: seq<ShowcaseItem>, selected: Option<ShowcaseItem>, dir: Direction): (r: Option<ShowcaseItem>)
    requires |cat| > 0
    ensures r.Some? <==> selected.Some?
    ensures r.Some? ==> r.value in cat
  {
    match selected
    case None => None
    case Some(item) => Some(cat[StepIndex(FirstIndex(cat, item.id), |cat|, dir)])
  }

  /** The selection after `m` navigations in the same direction. */
  function NavigateTimes(cat: seq<ShowcaseItem>, selected: Option<ShowcaseItem>, dir: Direction, m: nat): (r: Option<ShowcaseItem>)
    requires |cat| > 0
    ensures r.Some? <==> selected.Some?
    ensures r.Some? && m > 0 ==> r.value in cat
  {
    if m == 0 then selected else Navigate(cat, NavigateTimes(cat, selected, dir, m - 1), dir)
  }

  /** The selection after a key press while the modal's key handler is installed. */
  function KeyEffect(cat: seq<ShowcaseItem>, selected: Option<ShowcaseItem>, key: string): (r: Option<ShowcaseItem>)
    requires |cat| > 0
    ensures r.Some? ==> selected.Some? && (r.value in cat || r == selected)
  {
    if selected.None? then selected
    else if key == "ArrowLeft" then Navigate(cat, selected, Prev)
    else if key == "ArrowRight" then Navigate(cat, selected, Next)
    else if key == "Escape" then None
    else selected
  }

  /**
   * Which of the process stages show "Opening Mail Client..." for a given
   * `bookingStep`: stage `i` does exactly when `bookingStep === i`.
   */
  function BookingShown(bookingStep: Option<int>): (shown: seq<bool>)
    ensures |shown| == |PROCESS_STAGES|
    ensures forall i :: 0 <= i < |shown| ==> (shown[i] <==> bookingStep == Some(i))
    ensures forall i, j :: 0 <= i < j < |shown| ==> !(shown[i] && shown[j])
  {
    seq(|PROCESS_STAGES|, i => bookingStep == Some(i))
  }

  // ---------------------------------------------------------------------------
  // Lemmas about navigation
  // ---------------------------------------------------------------------------

  /** With distinct ids, looking an item up by its id finds its own position. */
  lemma FirstIndexOfMember(cat: seq<ShowcaseItem>, k: int)
    requires DistinctIds(cat) && 0 <= k < |cat|
    ensures FirstIndex(cat, cat[k].id) == k
  {
  }

  /** Next selects the item at `(i + 1) % N`, prev the item at `(i - 1 + N) % N`. */
  lemma NavigateFromIndex(cat: seq<ShowcaseItem>, k: int)
    requires WellFormed(cat) && 0 <= k < |cat|
    ensures Navigate(cat, Some(cat[k]), Next) == Some(cat[(k + 1) % |cat|])
    ensures Navigate(cat, Some(cat[k]), Prev) == Some(cat[(k - 1 + |cat|) % |cat|])
  {
    FirstIndexOfMember(cat, k);
  }

  /** Next from the last item wraps to the first; prev from the first wraps to the last. */
  lemma WrapsAround(cat: seq<ShowcaseItem>)
    requires WellFormed(cat)
    ensures Navigate(cat, Some(cat[|cat| - 1]), Next) == Some(cat[0])
    ensures Navigate(cat, Some(cat[0]), Prev) == Some(cat[|cat| - 1])
  {
    FirstIndexOfMember(cat, |cat| - 1);
    FirstIndexOfMember(cat, 0);
  }

  /** Next then prev restores the selection. */
  lemma NextThenPrev(cat: seq<ShowcaseItem>, selected: Option<ShowcaseItem>)
    requires WellFormed(cat)
    requires selected.Some? ==> selected.value in cat
    ensures Navigate(cat, Navigate(cat, selected, Next), Prev) == selected
  {
    if selected.Some? {
      var k :| 0 <= k < |cat| && cat[k] == selected.value;
      FirstIndexOfMember(cat, k);
      var k' := StepIndex(k, |cat|, Next);
      FirstIndexOfMember(cat, k');
    }
  }

  /** Prev then next restores the selection. */
  lemma PrevThenNext(cat: seq<ShowcaseItem>, selected: Option<ShowcaseItem>)
    requires WellFormed(cat)
    requires selected.Some? ==> selected.value in cat
    ensures Navigate(cat, Navigate(cat, selected, Prev), Next) == selected
  {
    if selected.Some? {
      var k :| 0 <= k < |cat| && cat[k] == selected.value;
      FirstIndexOfMember(cat, k);
      var k' := StepIndex(k, |cat|, Prev);
      FirstIndexOfMember(cat, k');
    }
  }

  /** Without distinct ids, next then prev can land elsewhere: the lookup by id finds the first twin. */
  lemma DuplicateIdsBreakUndo()
    ensures var a := ShowcaseItem("1", "A", "", "", "", "");
            var b := ShowcaseItem("2", "B", "", "", "", "");
            var c := ShowcaseItem("1", "C", "", "", "", "");
            Navigate([a, b, c], Navigate([a, b, c], Some(b), Next), Prev) == Some(c)
  {
    var a := ShowcaseItem("1", "A", "", "", "", "");
    var b := ShowcaseItem("2", "B", "", "", "", "");
    var c := ShowcaseItem("1", "C", "", "", "", "");
    assert FirstIndex([a, b, c], b.id) == 1;
    assert FirstIndex([a, b, c], c.id) == 0;
  }

  /** The remainder of a number below `2 * n`: itself, or the number less `n`. */
  lemma ModBelowTwice(a: int, n: int)
    requires 0 <= a < 2 * n
    ensures a % n == if a < n then a else a - n
  {
    var q, r := a / n, a % n;
    assert a == q * n + r;
    assert q == 0 || q == 1;
  }

  /** `m <= N` nexts from the item at index `k` select the item `m` places on, wrapping once. */
  lemma {:induction false} NextTimes(cat: seq<ShowcaseItem>, k: int, m: nat)
    requires WellFormed(cat) && 0 <= k < |cat| && m <= |cat|
    ensures NavigateTimes(cat, Some(cat[k]), Next, m)
         == Some(cat[if k + m < |cat| then k + m else k + m - |cat|])
  {
    if m > 0 {
      NextTimes(cat, k, m - 1);
      var j := if k + m - 1 < |cat| then k + m - 1 else k + m - 1 - |cat|;
      FirstIndexOfMember(cat, j);
    }
  }

  /** N consecutive nexts return to the starting item. */
  lemma FullCycle(cat: seq<ShowcaseItem>, selected: Option<ShowcaseItem>)
    requires WellFormed(cat)
    requires selected.Some? ==> selected.value in cat
    ensures NavigateTimes(cat, selected, Next, |cat|) == selected
  {
    if selected.Some? {
      var k :| 0 <= k < |cat| && cat[k] == selected.value;
      NextTimes(cat, k, |cat|);
    } else {
      NothingSelectedStays(cat, Next, |cat|);
    }
  }

  /** With nothing selected, any number of navigations leaves nothing selected. */
  lemma {:induction false} NothingSelectedStays(cat: seq<ShowcaseItem>, dir: Direction, m: nat)
    requires |cat| > 0
    ensures NavigateTimes(cat, None, dir, m) == None
  {
    if m > 0 {
      NothingSelectedStays(cat, dir, m - 1);
    }
  }

  /**
   * Key dispatch: ArrowLeft is prev, ArrowRight is next, Escape clears the
   * selection, any other key, or any key with nothing selected, changes nothing.
   */
  lemma KeyDispatch(cat: seq<ShowcaseItem>, selected: Option<ShowcaseItem>, key: string)
    requires |cat| > 0
    ensures selected.None? ==> KeyEffect(cat, selected, key) == None
    ensures selected.Some? && key == "ArrowLeft" ==> KeyEffect(cat, selected, key) == Navigate(cat, selected, Prev)
    ensures selected.Some? && key == "ArrowRight" ==> KeyEffect(cat, selected, key) == Navigate(cat, selected, Next)
    ensures selected.Some? && key == "Escape" ==> KeyEffect(cat, selected, key) == None
    ensures key !in {"ArrowLeft", "ArrowRight", "Escape"} ==> KeyEffect(cat, selected, key) == selected
  {
  }

  /** Pressing ArrowRight then ArrowLeft (or the reverse) in the open modal returns to the same item. */
  lemma ArrowKeysUndo(cat: seq<ShowcaseItem>, selected: Option<ShowcaseItem>)
    requires WellFormed(cat)
    requires selected.Some? ==> selected.value in cat
    ensures KeyEffect(cat, KeyEffect(cat, selected, "ArrowRight"), "ArrowLeft") == selected
    ensures KeyEffect(cat, KeyEffect(cat, selected, "ArrowLeft"), "ArrowRight") == selected
  {
    NextThenPrev(cat, selected);
    PrevThenNext(cat, selected);
  }

  // ---------------------------------------------------------------------------
  // The page component's state
  // ---------------------------------------------------------------------------

  /** `Array.prototype.findIndex` by id, as the linear search the page runs. */
  method FindIndex(cat: seq<ShowcaseItem>, id: string) returns (r: int)
    ensures r == FirstIndex(cat, id)
  {
    r := 0;
    while r < |cat| && cat[r].id != id
      invariant 0 <= r <= |cat|
      invariant forall j :: 0 <= j < r ==> cat[j].id != id
    {
      r := r + 1;
    }
    if r == |cat| {
      r := -1;
    }
  }

  /**
   * The `Home` component's state: the industry open in the modal
   * (`selectedIndustry`), the process stage whose mail client is being opened
   * (`bookingStep`), and the number of reset timers still to fire.
   */
  class HomePage {
    const catalogue: seq<ShowcaseItem>
    var selected: Option<ShowcaseItem>
    var bookingStep: Option<int>
    var pendingResets: nat

    /** The catalogue is well formed and an open modal always shows one of its items. */
    ghost predicate Valid()
      reads this
    {
      WellFormed(catalogue) && (selected.Some? ==> selected.value in catalogue)
    }

    /** The page as first rendered: no modal open, no stage booking. */
    constructor ()
      ensures Valid()
      ensures catalogue == INDUSTRIES
      ensures selected == None && bookingStep == None && pendingResets == 0
    {
      IndustriesWellFormed();
      catalogue := INDUSTRIES;
      selected := None;
      bookingStep := None;
      pendingResets := 0;
    }

    /** Clicking an industry card opens the modal on exactly that card. */
    method Open(item: ShowcaseItem)
      requires Valid() && item in catalogue
      modifies this
      ensures Valid()
      ensures selected == Some(item)
      ensures bookingStep == old(bookingStep) && pendingResets == old(pendingResets)
    {
      selected := Some(item);
    }

    /** The modal's close button and a click on its backdrop both close it. */
    method Close()
      requires Valid()
      modifies this
      ensures Valid()
      ensures selected == None
      ensures bookingStep == old(bookingStep) && pendingResets == old(pendingResets)
    {
      selected := None;
    }

    /** "Request Case Study" closes the modal (the mail-client redirect is not modelled). */
    method RequestCaseStudy()
      requires Valid()
      modifies this
      ensures Valid()
      ensures selected == None
      ensures bookingStep == old(bookingStep) && pendingResets == old(pendingResets)
    {
      Close();
    }

    /** `navigateIndustry(dir)`: look the open item up by id, then step with wrap-around. */
    method NavigateIndustry(dir: Direction)
      requires Valid()
      modifies this
      ensures Valid()
      ensures selected == Navigate(catalogue, old(selected), dir)
      ensures old(selected).Some? ==> selected.Some? && selected.value in catalogue
      ensures bookingStep == old(bookingStep) && pendingResets == old(pendingResets)
    {
      if selected.None? {
        return;
      }
      var current := FindIndex(catalogue, selected.value.id);
      var next := StepIndex(current, |catalogue|, dir);
      selected := Some(catalogue[next]);
    }

    /** The window `keydown` handler installed while the page is mounted. */
    method KeyDown(key: string)
      requires Valid()
      modifies this
      ensures Valid()
      ensures selected == KeyEffect(catalogue, old(selected), key)
      ensures old(selected).None? ==> selected == None
      ensures key == "Escape" ==> selected == None
      ensures key !in {"ArrowLeft", "ArrowRight", "Escape"} ==> selected == old(selected)
      ensures bookingStep == old(bookingStep) && pendingResets == old(pendingResets)
    {
      if selected.None? {
        return;
      }
      if key == "ArrowLeft" {
        NavigateIndustry(Prev);
      }
      if key == "ArrowRight" {
        NavigateIndustry(Next);
      }
      if key == "Escape" {
        selected := None;
      }
    }

    /**
     * `handleBooking(index)`: mark stage `index` as opening the mail client and
     * schedule a reset (the mail client itself and the two-second delay are not modelled).
     */
    method HandleBooking(index: int)
      requires Valid()
      modifies this
      ensures Valid()
      ensures bookingStep == Some(index)
      ensures pendingResets == old(pendingResets) + 1
      ensures selected == old(selected)
    {
      bookingStep := Some(index);
      pendingResets := pendingResets + 1;
    }

    /** One scheduled reset fires: no stage is booking any more. */
    method BookingTimerFires()
      requires Valid() && pendingResets > 0
      modifies this
      ensures Valid()
      ensures bookingStep == None
      ensures pendingResets == old(pendingResets) - 1
      ensures selected == old(selected)
    {
      bookingStep := None;
      pendingResets := pendingResets - 1;
    }
  }
}
