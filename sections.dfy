/** The page sections a cart mutation asks the server to re-render, and
    what replacing their contents does to the page. */
module CartSections {
  import opened Options

  /** One re-renderable region: the id of its container element, the
      server-side section name (absent when the page does not carry it) and
      the selector of the part whose inner HTML is replaced. */
  datatype SectionDescriptor = SectionDescriptor(id: string, section: Option<string>, selector: string)

  /** `.filter((s) => s.section)` keeps a descriptor when its section name
      is truthy: present and not the empty string. */
  predicate Defined(d: SectionDescriptor)
  {
    d.section.Some? && d.section.value != ""
  }

  function MainItems(mainItemsSection: Option<string>): SectionDescriptor
  {
    SectionDescriptor("main-cart-items", mainItemsSection, ".js-contents")
  }

  const IconBubble := SectionDescriptor("cart-icon-bubble", Some("cart-icon-bubble"), ".shopify-section")
  const LiveRegionText := SectionDescriptor("cart-live-region-text", Some("cart-live-region-text"), ".shopify-section")

  function MainFooter(footerSection: Option<string>): SectionDescriptor
  {
    SectionDescriptor("main-cart-footer", footerSection, ".js-contents")
  }

  /** The fixed list before filtering. `mainItemsSection` and
      `footerSection` are the `data-id` attributes of the elements
      `#main-cart-items` and `#main-cart-footer` (None when the element or
      the attribute is missing). */
  function AllDescriptors(mainItemsSection: Option<string>, footerSection: Option<string>): (r: seq<SectionDescriptor>)
    ensures DistinctIds(r)
    ensures |r| == 4 && Defined(r[1]) && Defined(r[2])
  {
    [MainItems(mainItemsSection), IconBubble, LiveRegionText, MainFooter(footerSection)]
  }

  /** `ds` with the descriptors that are not `Defined` dropped. */
  function KeepDefined(ds: seq<SectionDescriptor>): (r: seq<SectionDescriptor>)
    ensures |r| <= |ds|
    ensures forall d :: d in r ==> Defined(d)
  {
    if ds == [] then []
    else if Defined(ds[0]) then [ds[0]] + KeepDefined(ds[1..])
    else KeepDefined(ds[1..])
  }

  /** `a` is `b` with some elements left out, order kept. */
  predicate IsSubsequence<T(==)>(a: seq<T>, b: seq<T>)
    decreases |b|
  {
    if a == [] then true
    else if b == [] then false
    else if a[0] == b[0] then IsSubsequence(a[1..], b[1..])
    else IsSubsequence(a, b[1..])
  }

  /** Filtering keeps exactly the defined descriptors, in their order. */
  lemma {:induction false} KeepDefinedKeeps(ds: seq<SectionDescriptor>)
    ensures IsSubsequence(KeepDefined(ds), ds)
    ensures forall d :: d in KeepDefined(ds) <==> d in ds && Defined(d)
  {
    if ds != [] {
      KeepDefinedKeeps(ds[1..]);
      assert ds == [ds[0]] + ds[1..];
      if Defined(ds[0]) {
        assert KeepDefined(ds)[1..] == KeepDefined(ds[1..]);
      } else {
        var r := KeepDefined(ds);
        assert r != [] ==> r[0] != ds[0];
      }
    }
  }

  /** `getSectionsToRender`. */
  function SectionsToRender(mainItemsSection: Option<string>, footerSection: Option<string>): (r: seq<SectionDescriptor>)
    ensures forall d :: d in r ==> Defined(d)
  {
    KeepDefined(AllDescriptors(mainItemsSection, footerSection))
  }

  /** What `getSectionsToRender` returns, entry by entry: the main items
      descriptor when the page gives it a section name, the two static
      descriptors always, the footer descriptor when the page gives it a
      section name, in that order. */
  lemma SectionsToRenderShape(mainItemsSection: Option<string>, footerSection: Option<string>)
    ensures SectionsToRender(mainItemsSection, footerSection) ==
      (if Defined(MainItems(mainItemsSection)) then [MainItems(mainItemsSection)] else []) +
      [IconBubble, LiveRegionText] +
      (if Defined(MainFooter(footerSection)) then [MainFooter(footerSection)] else [])
  {
    var m, f := MainItems(mainItemsSection), MainFooter(footerSection);
    var all := AllDescriptors(mainItemsSection, footerSection);
    assert all[1..] == [IconBubble, LiveRegionText, f];
    assert [IconBubble, LiveRegionText, f][1..] == [LiveRegionText, f];
    assert [LiveRegionText, f][1..] == [f];
    assert [f][1..] == [];
    assert KeepDefined([f]) == if Defined(f) then [f] else [];
    assert KeepDefined([LiveRegionText, f]) == [LiveRegionText] + KeepDefined([f]);
    assert KeepDefined([IconBubble, LiveRegionText, f]) == [IconBubble] + KeepDefined([LiveRegionText, f]);
  }

  /** The result is an order-preserving selection from the fixed list, the
      two static entries are always there, and an entry is there exactly
      when its section name is defined. */
  lemma SectionsToRenderSelection(mainItemsSection: Option<string>, footerSection: Option<string>)
    ensures IsSubsequence(SectionsToRender(mainItemsSection, footerSection),
                          AllDescriptors(mainItemsSection, footerSection))
    ensures IconBubble in SectionsToRender(mainItemsSection, footerSection)
    ensures LiveRegionText in SectionsToRender(mainItemsSection, footerSection)
    ensures forall d :: d in SectionsToRender(mainItemsSection, footerSection) <==>
      d in AllDescriptors(mainItemsSection, footerSection) && Defined(d)
    ensures 2 <= |SectionsToRender(mainItemsSection, footerSection)| <= 4
  {
    KeepDefinedKeeps(AllDescriptors(mainItemsSection, footerSection));
    SectionsToRenderShape(mainItemsSection, footerSection);
  }

  /** No two descriptors name the same container. */
  predicate DistinctIds(ds: seq<SectionDescriptor>)
  {
    forall i, j :: 0 <= i < j < |ds| ==> ds[i].id != ds[j].id
  }

  lemma SectionsToRenderDistinct(mainItemsSection: Option<string>, footerSection: Option<string>)
    ensures DistinctIds(SectionsToRender(mainItemsSection, footerSection))
  {
    SectionsToRenderShape(mainItemsSection, footerSection);
  }

  /** The section names a request asks the server to render
      (`.map((s) => s.section)`). */
  function SectionNames(ds: seq<SectionDescriptor>): (names: seq<string>)
    ensures |names| == |ds|
    ensures forall i :: 0 <= i < |ds| && ds[i].section.Some? ==> names[i] == ds[i].section.value
  {
    if ds == [] then []
    else [if ds[0].section.Some? then ds[0].section.value else ""] + SectionNames(ds[1..])
  }

  /** The contents of a section container. `Extracted` is what
      `getSectionInnerHTML` yields: the inner HTML of the element matching
      `selector` in the rendered fragment (no fragment when the response
      has none for the section); HTML parsing is not modelled. */
  datatype Html = Markup(text: string) | Extracted(fragment: Option<string>, selector: string)

  function Lookup(m: map<string, string>, k: string): (r: Option<string>)
    ensures r.Some? <==> k in m
    ensures r.Some? ==> r.value == m[k]
  {
    if k in m then Some(m[k]) else None
  }

  /** The new contents of descriptor `d`'s container, given the response's
      map from section name to rendered HTML. */
  function NewContent(d: SectionDescriptor, fragments: map<string, string>): (h: Html)
    ensures h.Extracted? && h.selector == d.selector
    ensures d.section.Some? ==> (h.fragment.Some? <==> d.section.value in fragments)
    ensures d.section.Some? && h.fragment.Some? ==> h.fragment.value == fragments[d.section.value]
    ensures d.section.None? ==> h.fragment.None?
  {
    Extracted(if d.section.Some? then Lookup(fragments, d.section.value) else None, d.selector)
  }

  /** One iteration of the `forEach`: replace the container's contents if
      the container exists, otherwise nothing. */
  function Replace(containers: map<string, Html>, d: SectionDescriptor, fragments: map<string, string>): (r: map<string, Html>)
    ensures r.Keys == containers.Keys
  {
    if d.id in containers then containers[d.id := NewContent(d, fragments)] else containers
  }

  /** The whole `forEach`, in list order. */
  function Rerender(containers: map<string, Html>, ds: seq<SectionDescriptor>, fragments: map<string, string>): (r: map<string, Html>)
    ensures r.Keys == containers.Keys
  {
    if ds == [] then containers
    else Replace(Rerender(containers, ds[..|ds| - 1], fragments), ds[|ds| - 1], fragments)
  }

  /** With distinct ids, every listed container that exists holds its
      section's new content, and every other container is untouched. */
  lemma {:induction false} RerenderEffect(containers: map<string, Html>, ds: seq<SectionDescriptor>, fragments: map<string, string>)
    requires DistinctIds(ds)
    ensures forall i :: 0 <= i < |ds| && ds[i].id in containers ==>
      Rerender(containers, ds, fragments)[ds[i].id] == NewContent(ds[i], fragments)
    ensures forall id :: id in containers && (forall d :: d in ds ==> d.id != id) ==>
      Rerender(containers, ds, fragments)[id] == containers[id]
  {
    if ds != [] {
      var init := ds[..|ds| - 1];
      var last := ds[|ds| - 1];
      assert DistinctIds(init);
      RerenderEffect(containers, init, fragments);
      forall id | id in containers && (forall d :: d in ds ==> d.id != id)
        ensures Rerender(containers, ds, fragments)[id] == containers[id]
      {
        forall d | d in init ensures d.id != id {
          assert d in ds;
        }
      }
    }
  }
}
