/** The page's open/closed flags as `ModalManager` and `SidebarMenu` drive
    them. Both write the body's `overflow` style, so they share one
    scroll-lock flag and the last writer wins. */
module PageState {
  import opened Wrappers

  /** The three dialogs `ModalManager` knows about. */
  datatype Modal = Schedule | CostSheet | Enquire

  /** Which dialogs carry the `active` class, whether the dialog overlay is
      shown, the sidebar's three mirrored classes, and whether the body's
      overflow is `hidden`. */
  datatype Page = Page(
    activeModals: set<Modal>,
    modalOverlay: bool,
    sidebarOpen: bool,
    sidebarOverlay: bool,
    hamburgerActive: bool,
    scrollLocked: bool)

  /** The key under which `ModalManager` stores each dialog. */
  function ModalName(m: Modal): string {
    match m
    case Schedule => "schedule"
    case CostSheet => "costSheet"
    case Enquire => "enquire"
  }

  /** `this.modals[name]`: the dialog stored under `name` as an own key, if
      any; keys inherited from `Object.prototype` are not modelled. */
  function ModalNamed(name: string): (r: Option<Modal>)
    ensures r.Some? ==> ModalName(r.value) == name
    ensures r.None? ==> forall m: Modal :: ModalName(m) != name
  {
    if name == "schedule" then Some(Schedule)
    else if name == "costSheet" then Some(CostSheet)
    else if name == "enquire" then Some(Enquire)
    else None
  }

  /** Every dialog is found under its own key. */
  lemma ModalNamedInverse(m: Modal)
    ensures ModalNamed(ModalName(m)) == Some(m)
  {
  }

  /** At most one dialog is active at a time. */
  predicate AtMostOneModal(p: Page) {
    forall a, b :: a in p.activeModals && b in p.activeModals ==> a == b
  }

  /** The sidebar's overlay, hamburger and scroll lock agree with its own
      active flag, as `toggle` leaves them. */
  predicate SidebarMirrored(p: Page) {
    p.sidebarOverlay == p.sidebarOpen && p.hamburgerActive == p.sidebarOpen
    && p.scrollLocked == p.sidebarOpen
  }

  /** The sidebar's part of the page is the same in both. */
  predicate SameSidebar(p: Page, q: Page) {
    q.sidebarOpen == p.sidebarOpen && q.sidebarOverlay == p.sidebarOverlay
    && q.hamburgerActive == p.hamburgerActive
  }

  /** The dialogs' part of the page is the same in both. */
  predicate SameModals(p: Page, q: Page) {
    q.activeModals == p.activeModals && q.modalOverlay == p.modalOverlay
  }

  // ---------------------------------------------------------------------
  // ModalManager

  /** `closeAll`: every dialog inactive, overlay hidden, scrolling unlocked. */
  function CloseAll(p: Page): (q: Page)
    ensures q.activeModals == {} && !q.modalOverlay && !q.scrollLocked
    ensures SameSidebar(p, q)
  {
    p.(activeModals := {}, modalOverlay := false, scrollLocked := false)
  }

  /** `open(name)`: for a known name, close everything and then show exactly
      that dialog with the overlay and the scroll lock; an unknown name
      changes nothing. */
  function Open(p: Page, name: string): (q: Page)
    ensures ModalNamed(name).None? ==> q == p
    ensures ModalNamed(name).Some? ==>
      && q.activeModals == {ModalNamed(name).value}
      && q.modalOverlay && q.scrollLocked
      && SameSidebar(p, q)
    ensures AtMostOneModal(p) ==> AtMostOneModal(q)
  {
    match ModalNamed(name)
    case None => p
    case Some(m) =>
      var cleared := CloseAll(p);
      cleared.(activeModals := cleared.activeModals + {m}, modalOverlay := true, scrollLocked := true)
  }

  /** `close(name)`: for a known name, that dialog becomes inactive, the
      overlay is hidden and scrolling unlocked, while the other dialogs keep
      their state; an unknown name changes nothing. */
  function Close(p: Page, name: string): (q: Page)
    ensures ModalNamed(name).None? ==> q == p
    ensures ModalNamed(name).Some? ==>
      && q.activeModals == p.activeModals - {ModalNamed(name).value}
      && !q.modalOverlay && !q.scrollLocked
      && SameSidebar(p, q)
    ensures q.activeModals <= p.activeModals
    ensures AtMostOneModal(p) ==> AtMostOneModal(q)
  {
    match ModalNamed(name)
    case None => p
    case Some(m) => p.(activeModals := p.activeModals - {m}, modalOverlay := false, scrollLocked := false)
  }

  /** The dialog overlay is shown exactly when a dialog is active, and at
      most one is. */
  predicate ModalsCoherent(p: Page) {
    AtMostOneModal(p) && (p.modalOverlay <==> p.activeModals != {})
  }

  /** `open` and `closeAll` keep the dialogs coherent; `close` does so
      exactly when it closes the active dialog or none is active: closing
      some other dialog hides the overlay of the one still shown. */
  lemma ModalOperationsCoherent(p: Page, name: string)
    requires ModalsCoherent(p)
    ensures ModalsCoherent(Open(p, name))
    ensures ModalsCoherent(CloseAll(p))
    ensures ModalsCoherent(Close(p, name)) <==>
      ModalNamed(name).None? || p.activeModals <= {ModalNamed(name).value}
  {
    var q := Close(p, name);
    if ModalNamed(name).Some? {
      var m := ModalNamed(name).value;
      if !(p.activeModals <= {m}) {
        var a :| a in p.activeModals && a != m;
        assert a in q.activeModals;
      }
    }
  }

  /** Opening the enquiry dialog while the visit dialog is open leaves only
      the enquiry dialog open. */
  lemma OpenSwitchesDialog(p: Page)
    requires p.activeModals == {Schedule}
    ensures Open(p, "enquire").activeModals == {Enquire}
    ensures Schedule !in Open(p, "enquire").activeModals
  {
  }

  // ---------------------------------------------------------------------
  // SidebarMenu

  /** `toggle`: flip the sidebar and force its overlay, the hamburger and the
      scroll lock to the new value. The dialogs are untouched. */
  function SidebarToggle(p: Page): (q: Page)
    ensures q.sidebarOpen == !p.sidebarOpen
    ensures SidebarMirrored(q)
    ensures SameModals(p, q)
  {
    var isActive := !p.sidebarOpen;
    p.(sidebarOpen := isActive, sidebarOverlay := isActive, hamburgerActive := isActive, scrollLocked := isActive)
  }

  /** `close`: the sidebar, its overlay and the hamburger are switched off
      and scrolling is unlocked. The dialogs are untouched. */
  function SidebarClose(p: Page): (q: Page)
    ensures !q.sidebarOpen && !q.sidebarOverlay && !q.hamburgerActive && !q.scrollLocked
    ensures SidebarMirrored(q)
    ensures SameModals(p, q)
  {
    p.(sidebarOpen := false, sidebarOverlay := false, hamburgerActive := false, scrollLocked := false)
  }

  /** Toggling twice gives back the page exactly when the sidebar's flags
      were mirrored to begin with. */
  lemma ToggleTwice(p: Page)
    ensures SidebarToggle(SidebarToggle(p)) == p <==> SidebarMirrored(p)
  {
  }

  /** Closing the sidebar twice is closing it once. */
  lemma SidebarCloseIdempotent(p: Page)
    ensures SidebarClose(SidebarClose(p)) == SidebarClose(p)
  {
  }

  /** The mirrored flags hold from the initial page on, whatever sequence of
      sidebar operations follows. */
  lemma {:induction false} SidebarOpsMirrored(p: Page, ops: seq<bool>)
    requires SidebarMirrored(p)
    ensures SidebarMirrored(ApplySidebar(p, ops))
    decreases |ops|
  {
    if ops != [] {
      SidebarOpsMirrored(if ops[0] then SidebarToggle(p) else SidebarClose(p), ops[1..]);
    }
  }

  /** Runs sidebar operations in order: `true` is `toggle`, `false` is `close`. */
  function ApplySidebar(p: Page, ops: seq<bool>): Page
    decreases |ops|
  {
    if ops == [] then p
    else ApplySidebar(if ops[0] then SidebarToggle(p) else SidebarClose(p), ops[1..])
  }

  /** The scroll lock is shared: closing the sidebar unlocks scrolling even
      while a dialog is open, and toggling the sidebar shut does the same;
      whichever component wrote last decides. */
  lemma ScrollLockLastWriterWins(p: Page, name: string)
    requires ModalNamed(name).Some?
    ensures Open(p, name).activeModals != {} && !SidebarClose(Open(p, name)).scrollLocked
    ensures p.sidebarOpen ==> !SidebarToggle(Open(p, name)).scrollLocked
    ensures SidebarMirrored(p) && p.sidebarOpen ==>
      !Close(p, name).scrollLocked && Close(p, name).sidebarOpen
  {
  }
}
