/** The `cart-items` element and the remove button: validating a typed
    quantity, building the change request, applying the server's answer to
    the page, and the cart-update subscription. The page is an abstract view
    (`PageState`) rather than a DOM. */
module CartSync {
  import opened Options
  import opened QuantityValidation
  import opened CartSections

  /** The performance label of a mutation: started by a remove button
      ('clear') or by editing a quantity field ('change'). */
  datatype Action = Clear | Change

  /** A call of `updateQuantity(line, quantity, event, name, variantId)`. */
  datatype UpdateCall = UpdateCall(line: string, quantity: Entered, action: Action,
                                   focusName: Option<string>, variantId: Option<string>)

  /** The JSON body posted to the cart change endpoint. */
  datatype ChangeRequest = ChangeRequest(line: string, quantity: Entered, sections: seq<string>, sectionsUrl: string)

  /** The parsed answer of the cart change endpoint. */
  datatype CartResponse = CartResponse(itemCount: int, sections: map<string, string>, errors: Option<string>)

  /** `if (parsedState.errors)`: an errors field that is present and not empty. */
  function HasErrors(resp: CartResponse): (r: bool)
    ensures r <==> resp.errors.Some? && |resp.errors.value| > 0
    ensures resp.errors == Some("") ==> !r
  {
    resp.errors.Some? && resp.errors.value != ""
  }

  /** The payload published on the cart-update channel. */
  datatype CartEvent = CartEvent(source: string, cartData: CartResponse, variantId: Option<string>)

  /** The source identifier this component publishes under. */
  const Source := "cart-items"

  /** A quantity input: its current value, its `value` attribute (the last
      committed quantity) and its custom validity message. */
  datatype QuantityField = QuantityField(value: string, committed: string, validity: string)

  function QuantityId(line: string): string { "Quantity-" + line }
  function DrawerQuantityId(line: string): string { "Drawer-quantity-" + line }
  function LineErrorId(line: string): string { "Line-item-error-" + line }
  function DrawerLineErrorId(line: string): string { "CartDrawer-LineItemError-" + line }

  /** `getElementById(a) || getElementById(b)`. */
  function FirstPresent<V>(m: map<string, V>, a: string, b: string): (r: Option<string>)
    ensures r.None? <==> a !in m && b !in m
    ensures a in m ==> r == Some(a)
    ensures a !in m && b in m ==> r == Some(b)
  {
    if a in m then Some(a) else if b in m then Some(b) else None
  }

  /** `input.value = input.getAttribute('value')` on the field `id`, when
      there is one. */
  function Restored(fields: map<string, QuantityField>, id: string): (r: map<string, QuantityField>)
    ensures r.Keys == fields.Keys
    ensures id in fields ==> r[id] == fields[id].(value := fields[id].committed)
    ensures forall k :: k in fields && k != id ==> r[k] == fields[k]
  {
    if id in fields then fields[id := fields[id].(value := fields[id].committed)] else fields
  }

  /** The rollback of the response handler: the main-page field of the line,
      or else its drawer field, returns to its committed value. */
  function RolledBack(fields: map<string, QuantityField>, line: string): (r: map<string, QuantityField>)
    ensures r.Keys == fields.Keys
    ensures var q := FirstPresent(fields, QuantityId(line), DrawerQuantityId(line));
      q.Some? ==> r[q.value] == fields[q.value].(value := fields[q.value].committed)
    ensures forall k :: k in fields && Some(k) != FirstPresent(fields, QuantityId(line), DrawerQuantityId(line)) ==>
      r[k] == fields[k]
  {
    match FirstPresent(fields, QuantityId(line), DrawerQuantityId(line))
    case Some(id) => Restored(fields, id)
    case None => fields
  }

  /** The line-error write of `updateLiveRegions`: the text of the line's
      error element (main page first, then drawer), when there is one. */
  function WithLineError(errors: map<string, string>, line: string, message: string): (r: map<string, string>)
    ensures r.Keys == errors.Keys
    ensures var e := FirstPresent(errors, LineErrorId(line), DrawerLineErrorId(line));
      e.Some? ==> r[e.value] == message
    ensures forall k :: k in errors && Some(k) != FirstPresent(errors, LineErrorId(line), DrawerLineErrorId(line)) ==>
      r[k] == errors[k]
  {
    match FirstPresent(errors, LineErrorId(line), DrawerLineErrorId(line))
    case Some(id) => errors[id := message]
    case None => errors
  }

  /** `classList.toggle('is-empty', on)` on an element that may be absent. */
  function Toggle(flag: Option<bool>, on: bool): (r: Option<bool>)
    ensures r.Some? <==> flag.Some?
    ensures r.Some? ==> r.value == on
  {
    if flag.Some? then Some(on) else None
  }

  /** Everything of the page the component reads or writes.
      `footerEmpty`/`drawerEmpty` are None when `#main-cart-footer` /
      `cart-drawer` are absent; `mainItemsSection`/`footerSection` are the
      `data-id` attributes read by `getSectionsToRender`; `containers` maps
      the id of every present section container to its contents;
      `lineErrors` maps the id of every present line-error element to its
      text; `cartErrors` is the text of the cart-level error region. */
  datatype PageState = PageState(
    fields: map<string, QuantityField>,
    isEnterPressed: bool,
    itemsEmpty: bool,
    footerEmpty: Option<bool>,
    drawerEmpty: Option<bool>,
    mainItemsSection: Option<string>,
    footerSection: Option<string>,
    containers: map<string, Html>,
    lineErrors: map<string, string>,
    cartErrors: Option<string>,
    published: seq<CartEvent>,
    subscribed: bool)

  // ---- Validation -------------------------------------------------------

  /** `resetQuantityInput(id)`: only `#Quantity-<id>` is looked up. */
  function ResetInput(p: PageState, index: string): (r: PageState)
    ensures r.fields.Keys == p.fields.Keys
    ensures QuantityId(index) in p.fields ==>
      r.fields[QuantityId(index)] == p.fields[QuantityId(index)].(value := p.fields[QuantityId(index)].committed) &&
      !r.isEnterPressed
    ensures forall k :: k in p.fields && k != QuantityId(index) ==> r.fields[k] == p.fields[k]
    ensures r == p.(fields := r.fields, isEnterPressed := r.isEnterPressed)
    ensures QuantityId(index) !in p.fields ==> r == p
  {
    if QuantityId(index) in p.fields
    then p.(fields := Restored(p.fields, QuantityId(index)), isEnterPressed := false)
    else p
  }

  function WithValidity(p: PageState, target: string, message: string): (r: PageState)
    requires target in p.fields
    ensures r.fields.Keys == p.fields.Keys && r.fields[target].validity == message
    ensures r.fields[target].value == p.fields[target].value && r.fields[target].committed == p.fields[target].committed
    ensures forall k :: k in p.fields && k != target ==> r.fields[k] == p.fields[k]
    ensures r == p.(fields := r.fields)
  {
    p.(fields := p.fields[target := p.fields[target].(validity := message)])
  }

  /** The page after `validateQuantity` on the input `target` whose
      `data-index` is `index` and whose parsed value is `v`. */
  function Validated(p: PageState, target: string, index: string, v: Entered, c: InputConstraints, strings: Strings): (r: PageState)
    requires target in p.fields
    ensures r.fields.Keys == p.fields.Keys
    ensures r == p.(fields := r.fields, isEnterPressed := r.isEnterPressed)
    ensures r.fields[target].validity == if Decide(v, c, strings).Reject? then Decide(v, c, strings).message else ""
  {
    match Decide(v, c, strings)
    case Reject(message) => ResetInput(WithValidity(p, target, message), index)
    case Accept(_) => WithValidity(p, target, "")
  }

  /** What `validateQuantity` dispatches: nothing for a rejected value; for
      an accepted one, one `updateQuantity` for the same line and value. */
  function Dispatched(index: string, v: Entered, c: InputConstraints, strings: Strings,
                      focusName: Option<string>, variantId: Option<string>): (call: Option<UpdateCall>)
    ensures call.None? <==> Decide(v, c, strings).Reject?
    ensures call.Some? ==> call.value == UpdateCall(index, v, Change, focusName, variantId)
  {
    if Decide(v, c, strings).Reject? then None else Some(UpdateCall(index, v, Change, focusName, variantId))
  }

  /** A rejected value leaves the rejection message on the input and, when
      it is the line's main-page field, rolls it back to its committed
      value; an accepted value clears the message and changes nothing else. */
  lemma ValidatedEffect(p: PageState, target: string, index: string, v: Entered, c: InputConstraints, strings: Strings)
    requires target in p.fields
    ensures var r := Validated(p, target, index, v, c, strings);
      r.fields.Keys == p.fields.Keys &&
      match Decide(v, c, strings)
      case Reject(m) =>
        r == p.(fields := r.fields, isEnterPressed := r.isEnterPressed) &&
        r.fields[target].validity == m &&
        (target != QuantityId(index) ==> r.fields[target] == p.fields[target].(validity := m)) &&
        (QuantityId(index) in p.fields ==>
           r.fields[QuantityId(index)] ==
             (if target == QuantityId(index) then p.fields[target].(validity := m) else p.fields[QuantityId(index)])
               .(value := p.fields[QuantityId(index)].committed)) &&
        (QuantityId(index) in p.fields ==> !r.isEnterPressed) &&
        (QuantityId(index) !in p.fields ==> r.isEnterPressed == p.isEnterPressed) &&
        (forall k :: k in p.fields && k != target && k != QuantityId(index) ==> r.fields[k] == p.fields[k])
      case Accept(_) =>
        r == p.(fields := p.fields[target := p.fields[target].(validity := "")])
  {
  }

  // ---- Remove button and request ---------------------------------------

  /** A click on a remove button whose `data-index` is `index`: a request
      for quantity 0 of that line, when the button sits inside a cart items
      element; otherwise nothing. */
  function RemoveClick(index: string, insideCartItems: bool): (call: Option<UpdateCall>)
    ensures call.Some? <==> insideCartItems
    ensures call.Some? ==> call.value.line == index && call.value.quantity == Number(0)
    ensures call.Some? ==> call.value.action == Clear && call.value.focusName.None?
    ensures call.Some? ==> call.value.variantId.None?
  {
    if insideCartItems then Some(UpdateCall(index, Number(0), Clear, None, None)) else None
  }

  /** The body `updateQuantity` posts: the line and quantity of the call,
      the names of the sections to render, and the page path. */
  function RequestBody(call: UpdateCall, p: PageState, path: string): (b: ChangeRequest)
    ensures b.line == call.line && b.quantity == call.quantity && b.sectionsUrl == path
    ensures b.sections == SectionNames(SectionsToRender(p.mainItemsSection, p.footerSection))
    ensures "cart-icon-bubble" in b.sections && "cart-live-region-text" in b.sections
    ensures 2 <= |b.sections| <= 4
    ensures forall s :: s in b.sections ==> s != ""
  {
    var ds := SectionsToRender(p.mainItemsSection, p.footerSection);
    SectionsToRenderShape(p.mainItemsSection, p.footerSection);
    var names := SectionNames(ds);
    var k := if Defined(MainItems(p.mainItemsSection)) then 1 else 0;
    assert ds[k] == IconBubble && ds[k + 1] == LiveRegionText;
    assert names[k] == "cart-icon-bubble" && names[k + 1] == "cart-live-region-text";
    assert forall i :: 0 <= i < |names| ==> names[i] != "" by {
      forall i | 0 <= i < |names| ensures names[i] != "" {
        assert ds[i] in ds;
      }
    }
    ChangeRequest(call.line, call.quantity, names, path)
  }

  // ---- Response ---------------------------------------------------------

  /** The page after the change endpoint answered `resp` for `line`. With
      errors: the quantity is rolled back and the line error shows them.
      Without: the empty flags follow `item_count === 0`, the sections are
      re-rendered and the line error is cleared. In both cases the update
      is published. */
  function Responded(p: PageState, line: string, resp: CartResponse, variantId: Option<string>): (r: PageState)
    ensures r == p.(fields := r.fields, itemsEmpty := r.itemsEmpty, footerEmpty := r.footerEmpty,
                    drawerEmpty := r.drawerEmpty, containers := r.containers, lineErrors := r.lineErrors,
                    published := r.published)
    ensures r.fields.Keys == p.fields.Keys && r.containers.Keys == p.containers.Keys
    ensures r.lineErrors.Keys == p.lineErrors.Keys
    ensures r.published == p.published + [CartEvent(Source, resp, variantId)]
  {
    var event := CartEvent(Source, resp, variantId);
    if HasErrors(resp) then
      p.(fields := RolledBack(p.fields, line),
         lineErrors := WithLineError(p.lineErrors, line, resp.errors.value),
         published := p.published + [event])
    else
      var empty := resp.itemCount == 0;
      p.(itemsEmpty := empty,
         footerEmpty := Toggle(p.footerEmpty, empty),
         drawerEmpty := Toggle(p.drawerEmpty, empty),
         containers := Rerender(p.containers, SectionsToRender(p.mainItemsSection, p.footerSection), resp.sections),
         lineErrors := WithLineError(p.lineErrors, line, ""),
         published := p.published + [event])
  }

  /** A response with errors restores the line's quantity field to its
      committed value, shows the errors in the line's error element, and
      leaves the empty flags and every section untouched. */
  lemma ErrorResponseEffect(p: PageState, line: string, resp: CartResponse, variantId: Option<string>)
    requires HasErrors(resp)
    ensures var r := Responded(p, line, resp, variantId);
      && (QuantityId(line) in p.fields ==>
            r.fields[QuantityId(line)].value == p.fields[QuantityId(line)].committed)
      && (QuantityId(line) !in p.fields && DrawerQuantityId(line) in p.fields ==>
            r.fields[DrawerQuantityId(line)].value == p.fields[DrawerQuantityId(line)].committed)
      && (LineErrorId(line) in p.lineErrors ==> r.lineErrors[LineErrorId(line)] == resp.errors.value)
      && (LineErrorId(line) !in p.lineErrors && DrawerLineErrorId(line) in p.lineErrors ==>
            r.lineErrors[DrawerLineErrorId(line)] == resp.errors.value)
      && r.itemsEmpty == p.itemsEmpty && r.footerEmpty == p.footerEmpty && r.drawerEmpty == p.drawerEmpty
      && r.containers == p.containers
      && r.published == p.published + [CartEvent(Source, resp, variantId)]
      && r == p.(fields := r.fields, lineErrors := r.lineErrors, published := r.published)
      && (forall k :: k in p.fields && Some(k) != FirstPresent(p.fields, QuantityId(line), DrawerQuantityId(line)) ==>
            r.fields[k] == p.fields[k])
      && (forall k :: k in p.lineErrors && Some(k) != FirstPresent(p.lineErrors, LineErrorId(line), DrawerLineErrorId(line)) ==>
            r.lineErrors[k] == p.lineErrors[k])
  {
  }

  /** A response without errors sets every present empty flag to
      `item_count == 0`, gives each selected section whose container exists
      its new content and leaves every other container alone, clears the
      line error, and does not touch the quantity fields. */
  lemma SuccessResponseEffect(p: PageState, line: string, resp: CartResponse, variantId: Option<string>)
    requires !HasErrors(resp)
    ensures var r := Responded(p, line, resp, variantId);
      var ds := SectionsToRender(p.mainItemsSection, p.footerSection);
      && r.itemsEmpty == (resp.itemCount == 0)
      && (r.footerEmpty.Some? <==> p.footerEmpty.Some?)
      && (r.footerEmpty.Some? ==> r.footerEmpty.value == (resp.itemCount == 0))
      && (r.drawerEmpty.Some? <==> p.drawerEmpty.Some?)
      && (r.drawerEmpty.Some? ==> r.drawerEmpty.value == (resp.itemCount == 0))
      && r.containers.Keys == p.containers.Keys
      && (forall d :: d in ds && d.id in p.containers ==> r.containers[d.id] == NewContent(d, resp.sections))
      && (forall id :: id in p.containers && (forall d :: d in ds ==> d.id != id) ==>
            r.containers[id] == p.containers[id])
      && (LineErrorId(line) in p.lineErrors ==> r.lineErrors[LineErrorId(line)] == "")
      && (LineErrorId(line) !in p.lineErrors && DrawerLineErrorId(line) in p.lineErrors ==>
            r.lineErrors[DrawerLineErrorId(line)] == "")
      && (forall k :: k in p.lineErrors && Some(k) != FirstPresent(p.lineErrors, LineErrorId(line), DrawerLineErrorId(line)) ==>
            r.lineErrors[k] == p.lineErrors[k])
      && r.fields == p.fields
      && r.published == p.published + [CartEvent(Source, resp, variantId)]
      && r == p.(itemsEmpty := r.itemsEmpty, footerEmpty := r.footerEmpty, drawerEmpty := r.drawerEmpty,
                 containers := r.containers, lineErrors := r.lineErrors, published := r.published)
  {
    var ds := SectionsToRender(p.mainItemsSection, p.footerSection);
    SectionsToRenderDistinct(p.mainItemsSection, p.footerSection);
    RerenderEffect(p.containers, ds, resp.sections);
    forall d | d in ds && d.id in p.containers
      ensures Responded(p, line, resp, variantId).containers[d.id] == NewContent(d, resp.sections)
    {
      var i :| 0 <= i < |ds| && ds[i] == d;
    }
  }

  /** A transport or parse failure writes the generic error text into the
      cart error region, when the page has one. */
  function Failed(p: PageState, errorText: string): (r: PageState)
    ensures p.cartErrors.Some? ==> r.cartErrors == Some(errorText)
    ensures p.cartErrors.None? ==> r == p
    ensures r == p.(cartErrors := r.cartErrors)
  {
    if p.cartErrors.Some? then p.(cartErrors := Some(errorText)) else p
  }

  // ---- The element --------------------------------------------------------

  class CartItems {
    var fields: map<string, QuantityField>
    var isEnterPressed: bool
    var itemsEmpty: bool
    var footerEmpty: Option<bool>
    var drawerEmpty: Option<bool>
    var mainItemsSection: Option<string>
    var footerSection: Option<string>
    var containers: map<string, Html>
    var lineErrors: map<string, string>
    var cartErrors: Option<string>
    var published: seq<CartEvent>
    var subscribed: bool

    /** The page as this element sees it. */
    function Page(): PageState
      reads this
    {
      PageState(fields, isEnterPressed, itemsEmpty, footerEmpty, drawerEmpty, mainItemsSection,
                footerSection, containers, lineErrors, cartErrors, published, subscribed)
    }

    constructor (page: PageState)
      ensures Page() == page
    {
      fields, isEnterPressed, itemsEmpty := page.fields, page.isEnterPressed, page.itemsEmpty;
      footerEmpty, drawerEmpty := page.footerEmpty, page.drawerEmpty;
      mainItemsSection, footerSection := page.mainItemsSection, page.footerSection;
      containers, lineErrors, cartErrors := page.containers, page.lineErrors, page.cartErrors;
      published, subscribed := page.published, page.subscribed;
    }

    /** `connectedCallback`: subscribe to cart updates. */
    method Connect()
      modifies this
      ensures Page() == old(Page()).(subscribed := true)
    {
      subscribed := true;
    }

    /** `disconnectedCallback`: drop the subscription, if there is one. */
    method Disconnect()
      modifies this
      ensures Page() == old(Page()).(subscribed := false)
    {
      if subscribed {
        subscribed := false;
      }
    }

    /** The subscription's handler: an event this element hears causes a
      refresh of the cart unless this component published it. */
    method Deliver(e: CartEvent) returns (refresh: bool)
      ensures refresh <==> subscribed && e.source != Source
    {
      if !subscribed {
        return false;
      }
      if e.source == Source {
        return false;
      }
      return true;
    }

    /** `resetQuantityInput(index)`. */
    method ResetQuantityInput(index: string)
      modifies this
      ensures Page() == ResetInput(old(Page()), index)
    {
      var id := QuantityId(index);
      if id !in fields {
        return;
      }
      fields := fields[id := fields[id].(value := fields[id].committed)];
      isEnterPressed := false;
    }

    /** `setValidity(event, index, message)`. */
    method SetValidity(target: string, index: string, message: string)
      requires target in fields
      modifies this
      ensures Page() == ResetInput(WithValidity(old(Page()), target, message), index)
    {
      fields := fields[target := fields[target].(validity := message)];
      ResetQuantityInput(index);
    }

    /** `validateQuantity(event)` for the input `target` whose `data-index`
      is `index` and whose value parses to `v`; `focusName` is the name of
      the focused element and `variantId` the input's variant. */
    method ValidateQuantity(target: string, index: string, v: Entered, c: InputConstraints, strings: Strings,
                            focusName: Option<string>, variantId: Option<string>)
      returns (call: Option<UpdateCall>)
      requires target in fields
      modifies this
      ensures call == Dispatched(index, v, c, strings, focusName, variantId)
      ensures Page() == Validated(old(Page()), target, index, v, c, strings)
    {
      var verdict := Classify(v, c);
      var message := Message(verdict, c, strings);
      if message != "" {
        SetValidity(target, index, message);
        call := None;
      } else {
        fields := fields[target := fields[target].(validity := "")];
        call := Some(UpdateCall(index, v, Change, focusName, variantId));
      }
    }

    /** The line-error write of `updateLiveRegions(line, message)`. */
    method UpdateLiveRegions(line: string, message: string)
      modifies this
      ensures Page() == old(Page()).(lineErrors := WithLineError(old(lineErrors), line, message))
    {
      var id := FirstPresent(lineErrors, LineErrorId(line), DrawerLineErrorId(line));
      if id.Some? {
        lineErrors := lineErrors[id.value := message];
      }
    }

    /** The success handler of `updateQuantity` for `line`. */
    method ApplyChangeResponse(line: string, resp: CartResponse, variantId: Option<string>)
      modifies this
      ensures Page() == Responded(old(Page()), line, resp, variantId)
    {
      var event := CartEvent(Source, resp, variantId);
      if HasErrors(resp) {
        var id := FirstPresent(fields, QuantityId(line), DrawerQuantityId(line));
        if id.Some? {
          fields := fields[id.value := fields[id.value].(value := fields[id.value].committed)];
        }
        UpdateLiveRegions(line, resp.errors.value);
        published := published + [event];
        return;
      }
      var empty := resp.itemCount == 0;
      ToggleEmpty(empty);
      var ds := SectionsToRender(mainItemsSection, footerSection);
      RenderSections(ds, resp.sections);
      UpdateLiveRegions(line, "");
      published := published + [event];
    }

    /** The three `classList.toggle('is-empty', empty)` calls. */
    method ToggleEmpty(empty: bool)
      modifies this
      ensures Page() == old(Page()).(itemsEmpty := empty, footerEmpty := Toggle(old(footerEmpty), empty),
                                     drawerEmpty := Toggle(old(drawerEmpty), empty))
    {
      itemsEmpty := empty;
      if footerEmpty.Some? {
        footerEmpty := Some(empty);
      }
      if drawerEmpty.Some? {
        drawerEmpty := Some(empty);
      }
    }

    /** The `forEach` over the sections to render. */
    method RenderSections(ds: seq<SectionDescriptor>, fragments: map<string, string>)
      modifies this
      ensures Page() == old(Page()).(containers := Rerender(old(containers), ds, fragments))
    {
      var i := 0;
      while i < |ds|
        invariant 0 <= i <= |ds|
        invariant containers == Rerender(old(containers), ds[..i], fragments)
        invariant Page() == old(Page()).(containers := containers)
      {
        var d := ds[i];
        if d.id in containers {
          containers := containers[d.id := NewContent(d, fragments)];
        }
        assert ds[..i + 1][..i] == ds[..i];
        i := i + 1;
      }
      assert ds[..|ds|] == ds;
    }

    /** The failure handler of `updateQuantity`. */
    method ApplyTransportFailure(errorText: string)
      modifies this
      ensures Page() == Failed(old(Page()), errorText)
    {
      if cartErrors.Some? {
        cartErrors := Some(errorText);
      }
    }
  }
}
