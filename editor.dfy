/**
 * The form-template editor page: the list of placed elements, the per-type
 * counters that name new elements, the form's name and description, and the
 * geometry rules for dragging and resizing an element inside the preview.
 * Elements are values; the page's element list is replaced as a whole when an
 * element changes, and an element is designated by its position in that list.
 */
module Editor {
  import opened Wrappers
  import Text

  /** The element types the toolbar offers. */
  const KnownKinds: set<string> := {"text", "textarea", "number", "select", "picture"}

  /** The form name used when none is given. */
  const DefaultFormName: string := "Nepojmenovaný template"

  /** A placed form element; `id` is the clock reading taken when it was added. */
  datatype Element = Element(id: int, kind: string, name: string, placeholder: string,
                             x: int, y: int, width: int, height: int,
                             options: seq<string>, pictureUrl: string)

  /** A position and size in the preview. */
  datatype Box = Box(x: int, y: int, width: int, height: int)

  /** The eight resize handles. */
  datatype Handle = N | S | E | W | NE | NW | SE | SW

  /** Which text property `makeEditable` edits. */
  datatype Property = Name | Placeholder

  /** `getElementTypeName(type)`: the display name of a type, `'Unknown'` for
      any other type. */
  function TypeName(kind: string): (name: string)
    ensures name == "Unknown" <==> kind !in KnownKinds
    ensures kind == "select" ==> name == "Dropdown"
  {
    if kind == "text" then "TextField"
    else if kind == "textarea" then "TextArea"
    else if kind == "number" then "NumberField"
    else if kind == "select" then "Dropdown"
    else if kind == "picture" then "Picture"
    else "Unknown"
  }

  /** The element `addElement` builds before it is pushed. */
  function NewElement(id: int, kind: string, name: string): Element {
    Element(id, kind, name,
            if kind == "select" then "" else if kind == "picture" then "No picture uploaded" else "Enter " + kind + " here",
            20, 20, 200, if kind == "picture" then 150 else 40,
            if kind == "select" then ["Option 1", "Option 2"] else [], "")
  }

  /** The number of elements of type `kind`. */
  function CountOf(es: seq<Element>, kind: string): (n: nat)
    ensures n <= |es|
  {
    if es == [] then 0 else CountOf(es[..|es| - 1], kind) + (if es[|es| - 1].kind == kind then 1 else 0)
  }

  /** The types that occur in `es`. */
  function Kinds(es: seq<Element>): set<string> {
    set e | e in es :: e.kind
  }

  /** `elements.filter(el => el.id !== id)`. */
  function Without(es: seq<Element>, id: int): (r: seq<Element>)
    ensures |r| <= |es|
    ensures forall e :: e in r <==> e in es && e.id != id
  {
    if es == [] then []
    else Without(es[..|es| - 1], id) + (if es[|es| - 1].id != id then [es[|es| - 1]] else [])
  }

  /** `elements.find(el => el.id === id)`: the first element with that id. */
  function FirstWithId(es: seq<Element>, id: int): (r: Option<Element>)
    ensures r.None? <==> forall i :: 0 <= i < |es| ==> es[i].id != id
    ensures r.Some? ==> r.value in es && r.value.id == id
  {
    if es == [] then None
    else
      match FirstWithId(es[..|es| - 1], id)
      case Some(e) => Some(e)
      case None => if es[|es| - 1].id == id then Some(es[|es| - 1]) else None
  }

  /** The element found is the one at the first index holding that id. */
  lemma {:induction false} FirstWithIdIsFirst(es: seq<Element>, id: int, i: int)
    requires 0 <= i < |es| && es[i].id == id
    requires forall j :: 0 <= j < i ==> es[j].id != id
    ensures FirstWithId(es, id) == Some(es[i])
    decreases |es|
  {
    if i < |es| - 1 {
      FirstWithIdIsFirst(es[..|es| - 1], id, i);
    } else {
      assert FirstWithId(es[..|es| - 1], id).None?;
    }
  }

  /** Removing the elements with an id removes at most as many of each type as
      there were, and at least one of the type of the first element found. */
  lemma {:induction false} WithoutCount(es: seq<Element>, id: int, kind: string)
    ensures CountOf(Without(es, id), kind) <= CountOf(es, kind)
    ensures FirstWithId(es, id).Some? && FirstWithId(es, id).value.kind == kind ==>
              CountOf(Without(es, id), kind) < CountOf(es, kind)
    decreases |es|
  {
    if es != [] {
      var init, x := es[..|es| - 1], es[|es| - 1];
      WithoutCount(init, id, kind);
      var rest := Without(init, id);
      assert CountOf(es, kind) == CountOf(init, kind) + (if x.kind == kind then 1 else 0);
      if x.id != id {
        assert Without(es, id) == rest + [x];
        CountOfPush(rest, x, kind);
      } else {
        assert Without(es, id) == rest + [];
        assert rest + [] == rest;
      }
    }
  }

  /** The types of `es + [e]`. */
  lemma KindsPush(es: seq<Element>, e: Element)
    ensures Kinds(es + [e]) == Kinds(es) + {e.kind}
  {
    forall k | k in Kinds(es + [e]) ensures k in Kinds(es) + {e.kind} {
      var x :| x in es + [e] && x.kind == k;
    }
  }

  /** A type that does not occur has no elements. */
  lemma {:induction false} CountOfAbsent(es: seq<Element>, kind: string)
    requires kind !in Kinds(es)
    ensures CountOf(es, kind) == 0
    decreases |es|
  {
    if es != [] {
      var init := es[..|es| - 1];
      assert es[|es| - 1] in es;
      CountOfAbsent(init, kind);
    }
  }

  /** `elements.push(e)` adds one to `e`'s type and nothing to the others. */
  lemma CountOfPush(es: seq<Element>, e: Element, kind: string)
    ensures CountOf(es + [e], kind) == CountOf(es, kind) + (if e.kind == kind then 1 else 0)
  {
    assert (es + [e])[..|es|] == es;
  }

  /** `Math.max(lo, Math.min(v, hi))`. */
  function Clamp(lo: int, v: int, hi: int): (r: int)
    ensures lo <= r
    ensures lo <= hi ==> r <= hi
    ensures lo <= v <= hi ==> r == v
    ensures v < lo ==> r == lo
    ensures lo <= hi < v ==> r == hi
  {
    var m := if v < hi then v else hi;
    if lo < m then m else lo
  }

  /** `constrainDimensions(x, y, w, h)` inside a preview of `maxWidth` by
      `maxHeight`: the position is pulled into the preview first, then the
      size is bounded by what remains, with a minimum of 50 by 30. */
  function ConstrainDimensions(b: Box, maxWidth: int, maxHeight: int): (r: Box)
    ensures r.x >= 0 && r.y >= 0 && r.width >= 50 && r.height >= 30
    ensures 50 <= b.width <= maxWidth ==> r.width == b.width && r.x + r.width <= maxWidth
    ensures 30 <= b.height <= maxHeight ==> r.height == b.height && r.y + r.height <= maxHeight
    ensures 0 <= b.x && 50 <= b.width && b.x + b.width <= maxWidth ==> r.x == b.x && r.width == b.width
    ensures 0 <= b.y && 30 <= b.height && b.y + b.height <= maxHeight ==> r.y == b.y && r.height == b.height
  {
    var x := Clamp(0, b.x, maxWidth - b.width);
    var y := Clamp(0, b.y, maxHeight - b.height);
    Box(x, y, Clamp(50, b.width, maxWidth - x), Clamp(30, b.height, maxHeight - y))
  }

  /** The box a handle asks for after the pointer moved by `(dx, dy)`, before
      it is constrained: the `switch (direction)` of the resize handler. */
  function ResizeRequest(handle: Handle, start: Box, dx: int, dy: int): (r: Box)
    ensures handle in {W, NW, SW} ==> r.x == start.x + dx
    ensures handle in {E, NE, SE} ==> r.x + r.width == start.x + start.width + dx
    ensures handle in {N, NE, NW} ==> r.y == start.y + dy
    ensures handle in {S, SE, SW} ==> r.y + r.height == start.y + start.height + dy
  {
    var left := handle == W || handle == NW || handle == SW;
    var right := handle == E || handle == NE || handle == SE;
    var top := handle == N || handle == NE || handle == NW;
    var bottom := handle == S || handle == SE || handle == SW;
    Box(if left then start.x + dx else start.x,
        if top then start.y + dy else start.y,
        if left then start.width - dx else if right then start.width + dx else start.width,
        if top then start.height - dy else if bottom then start.height + dy else start.height)
  }

  /** A handle moves only its own edges: the opposite edges stay where they
      were, and a side handle keeps the other dimension. */
  lemma ResizeKeepsOppositeEdges(handle: Handle, start: Box, dx: int, dy: int)
    ensures var r := ResizeRequest(handle, start, dx, dy);
            (handle in {W, NW, SW} ==> r.x + r.width == start.x + start.width)
            && (handle !in {W, NW, SW} ==> r.x == start.x)
            && (handle in {N, NE, NW} ==> r.y + r.height == start.y + start.height)
            && (handle !in {N, NE, NW} ==> r.y == start.y)
            && (handle in {N, S} ==> r.width == start.width)
            && (handle in {E, W} ==> r.height == start.height)
  {
  }

  /** A template as the load endpoint returns it; `elements` is `None` when
      the answer has none. */
  datatype Fetched = Fetched(name: string, description: string, elements: Option<seq<Element>>)

  /** `elements.find(el => el.id === id)`, as the loop it runs. */
  method FindById(es: seq<Element>, id: int) returns (found: Option<Element>)
    ensures found == FirstWithId(es, id)
  {
    found := None;
    var i := 0;
    while i < |es| && found.None?
      invariant 0 <= i <= |es|
      invariant found == FirstWithId(es[..i], id)
      invariant found.Some? ==> found == FirstWithId(es, id)
    {
      assert es[..i + 1][..i] == es[..i];
      if es[i].id == id {
        found := Some(es[i]);
        FirstWithIdIsFirst(es, id, i);
      }
      i := i + 1;
    }
    assert es[..|es|] == es;
  }

  /** `elements.filter(el => el.id !== id)`, as the loop it runs. */
  method FilterOutId(es: seq<Element>, id: int) returns (kept: seq<Element>)
    ensures kept == Without(es, id)
  {
    kept := [];
    for i := 0 to |es|
      invariant kept == Without(es[..i], id)
    {
      assert es[..i + 1][..i] == es[..i];
      if es[i].id != id {
        kept := kept + [es[i]];
      }
    }
    assert es[..|es|] == es;
  }

  /** `counts` holds exactly the toolbar's types and the types in `es`, each
      at the number of elements of that type. */
  predicate Tallied(es: seq<Element>, counts: map<string, int>) {
    counts.Keys == KnownKinds + Kinds(es)
    && forall t :: t in counts ==> counts[t] == CountOf(es, t)
  }

  /** Counting one more element keeps the tally exact. */
  lemma TallyPush(es: seq<Element>, counts: map<string, int>, e: Element)
    requires Tallied(es, counts)
    ensures Tallied(es + [e], counts[e.kind := (if e.kind in counts then counts[e.kind] else 0) + 1])
  {
    KindsPush(es, e);
    if e.kind !in counts {
      CountOfAbsent(es, e.kind);
    }
    var bumped := counts[e.kind := (if e.kind in counts then counts[e.kind] else 0) + 1];
    forall t | t in bumped ensures bumped[t] == CountOf(es + [e], t) {
      CountOfPush(es, e, t);
    }
  }

  /** The recount loop of `loadConfiguration`: every toolbar type starts at
      zero, then each element adds one to its type's counter. */
  method Recount(es: seq<Element>) returns (counts: map<string, int>)
    ensures counts.Keys == KnownKinds + Kinds(es)
    ensures forall t :: t in counts ==> counts[t] == CountOf(es, t)
  {
    counts := map["text" := 0, "textarea" := 0, "number" := 0, "select" := 0, "picture" := 0];
    for i := 0 to |es|
      invariant Tallied(es[..i], counts)
    {
      assert es[..i + 1] == es[..i] + [es[i]];
      TallyPush(es[..i], counts, es[i]);
      counts := counts[es[i].kind := (if es[i].kind in counts then counts[es[i].kind] else 0) + 1];
    }
    assert es[..|es|] == es;
  }

  /** Every toolbar type and every type in `es` has a counter, and no counter
      is below the number of elements of its type. */
  predicate Counted(es: seq<Element>, counts: map<string, int>) {
    KnownKinds <= counts.Keys
    && Kinds(es) <= counts.Keys
    && forall t :: t in counts ==> CountOf(es, t) <= counts[t]
  }

  /** Bumping a type's counter and pushing an element of that type keeps
      every counter at or above its count. */
  lemma PushCounted(es: seq<Element>, counts: map<string, int>, e: Element)
    requires Counted(es, counts) && e.kind in counts
    ensures Counted(es + [e], counts[e.kind := counts[e.kind] + 1])
  {
    KindsPush(es, e);
    var bumped := counts[e.kind := counts[e.kind] + 1];
    forall t | t in bumped ensures CountOf(es + [e], t) <= bumped[t] {
      CountOfPush(es, e, t);
    }
  }

  /** The counters after removing `found`: its type's counter goes down by
      one; with nothing found they are unchanged. */
  function TakeOne(counts: map<string, int>, found: Option<Element>): (r: map<string, int>)
    requires found.Some? ==> found.value.kind in counts
    ensures r.Keys == counts.Keys
    ensures forall t :: t in r ==> r[t] == counts[t] - (if found.Some? && found.value.kind == t then 1 else 0)
  {
    if found.Some? then counts[found.value.kind := counts[found.value.kind] - 1] else counts
  }

  /** Removing the elements with an id, and taking one off the counter of the
      first one's type, keeps every counter at or above its count. */
  lemma WithoutCounted(es: seq<Element>, counts: map<string, int>, id: int, found: Option<Element>)
    requires Counted(es, counts) && found == FirstWithId(es, id)
    requires found.Some? ==> found.value.kind in counts
    ensures Counted(Without(es, id), TakeOne(counts, found))
  {
    var kept := Without(es, id);
    var after := TakeOne(counts, found);
    forall k | k in Kinds(kept) ensures k in after {
      var x :| x in kept && x.kind == k;
      assert x in es;
    }
    forall t | t in after ensures CountOf(kept, t) <= after[t] {
      WithoutCount(es, id, t);
    }
  }

  /** The editor page's state. */
  class EditorPage {
    var elements: seq<Element>
    var elementCounts: map<string, int>
    var selected: Option<int>
    var formName: string
    var description: string
    var templateId: string

    /** Every counter exists for the toolbar's types and for the types on the
        page, and no counter is below the number of elements of its type. */
    predicate Valid()
      reads this
    {
      Counted(elements, elementCounts)
    }

    constructor (templateId: string)
      ensures Valid()
      ensures elements == [] && selected == None && this.templateId == templateId
      ensures forall t :: t in KnownKinds ==> elementCounts[t] == 0
    {
      elements := [];
      elementCounts := map["text" := 0, "textarea" := 0, "number" := 0, "select" := 0, "picture" := 0];
      selected := None;
      formName := "";
      description := "";
      this.templateId := templateId;
    }

    /** No counter is ever negative. */
    lemma CountersNonNegative()
      requires Valid()
      ensures forall t :: t in elementCounts ==> elementCounts[t] >= 0
    {
    }

    /** `generateElementName(type)`: bumps the type's counter and names the
        element after the type and the new count. */
    method GenerateElementName(kind: string) returns (name: string)
      requires Valid() && kind in KnownKinds
      modifies this
      ensures Valid()
      ensures elementCounts == old(elementCounts)[kind := old(elementCounts)[kind] + 1]
      ensures name == TypeName(kind) + Text.IntToString(elementCounts[kind])
      ensures elements == old(elements) && selected == old(selected)
      ensures formName == old(formName) && description == old(description) && templateId == old(templateId)
    {
      elementCounts := elementCounts[kind := elementCounts[kind] + 1];
      name := TypeName(kind) + Text.IntToString(elementCounts[kind]);
    }

    /** `addElement(type)` with the clock reading `id`: appends one new
        element with the type's defaults and a generated name. */
    method AddElement(kind: string, id: int)
      requires Valid() && kind in KnownKinds
      modifies this
      ensures Valid()
      ensures elementCounts == old(elementCounts)[kind := old(elementCounts)[kind] + 1]
      ensures elements == old(elements) + [NewElement(id, kind, TypeName(kind) + Text.IntToString(elementCounts[kind]))]
      ensures var e := elements[|elements| - 1];
              e.x == 20 && e.y == 20 && e.width == 200
              && (e.height == 150 <==> kind == "picture") && (e.height == 40 <==> kind != "picture")
              && (|e.options| == 2 <==> kind == "select") && (e.options == [] <==> kind != "select")
      ensures selected == old(selected)
      ensures formName == old(formName) && description == old(description) && templateId == old(templateId)
    {
      var name := GenerateElementName(kind);
      var e := NewElement(id, kind, name);
      PushCounted(elements, old(elementCounts), e);
      elements := elements + [e];
    }

    /** `removeElement(id)`: drops every element with that id, keeping the
        others in order; the counter of the first such element's type goes
        down by one, and only when one was found; the selection is cleared
        exactly when it was that id. */
    method RemoveElement(id: int)
      requires Valid()
      modifies this`elements, this`elementCounts, this`selected
      ensures Valid()
      ensures elements == Without(old(elements), id)
      ensures forall e :: e in elements ==> e.id != id
      ensures elementCounts == TakeOne(old(elementCounts), FirstWithId(old(elements), id))
      ensures selected == if old(selected) == Some(id) then None else old(selected)
    {
      var found := FindById(elements, id);
      if found.Some? {
        assert found.value.kind in Kinds(elements);
      }
      WithoutCounted(elements, elementCounts, id, found);
      var counts := TakeOne(elementCounts, found);
      var kept := FilterOutId(elements, id);
      var sel := if selected == Some(id) then None else selected;
      elements, elementCounts, selected := kept, counts, sel;
    }

    /** `loadConfiguration()` with the fetched template (`None` when the
        request failed). Without a template id the page is cleared and named
        by default; a failed fetch changes nothing; otherwise the elements are
        replaced (`config.elements || []`) and every counter is recounted. */
    method LoadConfiguration(fetched: Option<Fetched>)
      modifies this
      ensures templateId == "" ==>
                elements == [] && formName == DefaultFormName && description == old(description)
                && elementCounts.Keys == KnownKinds && forall t :: t in KnownKinds ==> elementCounts[t] == 0
      ensures templateId != "" && fetched.None? ==>
                elements == old(elements) && elementCounts == old(elementCounts)
                && formName == old(formName) && description == old(description)
      ensures templateId != "" && fetched.Some? ==>
                elements == fetched.value.elements.GetOr([])
                && formName == fetched.value.name && description == fetched.value.description
                && elementCounts.Keys == KnownKinds + Kinds(elements)
                && forall t :: t in elementCounts ==> elementCounts[t] == CountOf(elements, t)
      ensures templateId != "" && fetched.None? ==> Valid() == old(Valid())
      ensures templateId == "" || fetched.Some? ==> Valid()
      ensures selected == old(selected) && templateId == old(templateId)
    {
      var zero := map["text" := 0, "textarea" := 0, "number" := 0, "select" := 0, "picture" := 0];
      if templateId == "" {
        elements := [];
        elementCounts := zero;
        formName := DefaultFormName;
        return;
      }
      if fetched.None? {
        return;
      }
      var es := fetched.value.elements.GetOr([]);
      var counts := Recount(es);
      elements := es;
      elementCounts := counts;
      formName := fetched.value.name;
      description := fetched.value.description;
    }

    /** `saveFormName(input)`: the trimmed input, or the default name when
        that is empty. */
    method SaveFormName(input: string)
      modifies this`formName
      ensures Text.Trim(input) != [] ==> formName == Text.Trim(input)
      ensures Text.AllSpace(input) ==> formName == DefaultFormName
      ensures formName != [] && !Text.IsSpace(formName[0])
    {
      var trimmed := Text.Trim(input);
      Text.TrimBlank(input);
      if trimmed != [] {
        formName := trimmed;
      } else {
        assert DefaultFormName[0] == 'N';
        formName := DefaultFormName;
      }
    }

    /** `saveDescription(input)`: the trimmed input (`|| ''` changes nothing). */
    method SaveDescription(input: string)
      modifies this`description
      ensures description == Text.Trim(input)
    {
      var trimmed := Text.Trim(input);
      description := trimmed;
    }

    /** `makeEditable`'s save: a non-blank input replaces the property with
        its trimmed text; a blank one leaves the element as it was. */
    method EditProperty(index: int, property: Property, input: string)
      requires Valid() && 0 <= index < |elements|
      modifies this
      ensures Valid()
      ensures Text.AllSpace(input) ==> elements == old(elements)
      ensures !Text.AllSpace(input) ==>
                elements == old(elements)[index := match property
                                                   case Name => old(elements)[index].(name := Text.Trim(input))
                                                   case Placeholder => old(elements)[index].(placeholder := Text.Trim(input))]
      ensures elementCounts == old(elementCounts) && selected == old(selected)
      ensures formName == old(formName) && description == old(description) && templateId == old(templateId)
    {
      Text.TrimBlank(input);
      var value := Text.Trim(input);
      if value != [] {
        var e := elements[index];
        var edited := match property
                      case Name => e.(name := value)
                      case Placeholder => e.(placeholder := value);
        SameKindsCount(elements, index, edited);
        elements := elements[index := edited];
      }
    }

    /** The drag handler: the element's new position, pulled into the
        preview of `previewWidth` by `previewHeight`. */
    method Drag(index: int, newX: int, newY: int, previewWidth: int, previewHeight: int)
      requires Valid() && 0 <= index < |elements|
      modifies this
      ensures Valid()
      ensures elements == old(elements)[index := old(elements)[index].(
                x := Clamp(0, newX, previewWidth - old(elements)[index].width),
                y := Clamp(0, newY, previewHeight - old(elements)[index].height))]
      ensures 0 <= elements[index].x && 0 <= elements[index].y
      ensures elements[index].width <= previewWidth ==> elements[index].x + elements[index].width <= previewWidth
      ensures elements[index].height <= previewHeight ==> elements[index].y + elements[index].height <= previewHeight
      ensures elementCounts == old(elementCounts) && selected == old(selected)
      ensures formName == old(formName) && description == old(description) && templateId == old(templateId)
    {
      var e := elements[index];
      var moved := e.(x := Clamp(0, newX, previewWidth - e.width), y := Clamp(0, newY, previewHeight - e.height));
      SameKindsCount(elements, index, moved);
      elements := elements[index := moved];
    }

    /** One `mousemove` of a resize that started with the box `start`. */
    method Resize(index: int, handle: Handle, start: Box, dx: int, dy: int, maxWidth: int, maxHeight: int)
      requires Valid() && 0 <= index < |elements|
      modifies this
      ensures Valid()
      ensures var b := ConstrainDimensions(ResizeRequest(handle, start, dx, dy), maxWidth, maxHeight);
              elements == old(elements)[index := old(elements)[index].(x := b.x, y := b.y, width := b.width, height := b.height)]
      ensures elements[index].x >= 0 && elements[index].y >= 0
      ensures elements[index].width >= 50 && elements[index].height >= 30
      ensures elementCounts == old(elementCounts) && selected == old(selected)
      ensures formName == old(formName) && description == old(description) && templateId == old(templateId)
    {
      var b := ConstrainDimensions(ResizeRequest(handle, start, dx, dy), maxWidth, maxHeight);
      var e := elements[index];
      var resized := e.(x := b.x, y := b.y, width := b.width, height := b.height);
      SameKindsCount(elements, index, resized);
      elements := elements[index := resized];
    }

    /** "+ Add Option": appends "Option <n+1>" to the element's options. */
    method AddOption(index: int)
      requires Valid() && 0 <= index < |elements|
      modifies this
      ensures Valid()
      ensures elements == old(elements)[index := old(elements)[index].(
                options := old(elements)[index].options + ["Option " + Text.IntToString(|old(elements)[index].options| + 1)])]
      ensures elementCounts == old(elementCounts) && selected == old(selected)
      ensures formName == old(formName) && description == old(description) && templateId == old(templateId)
    {
      var e := elements[index];
      var changed := e.(options := e.options + ["Option " + Text.IntToString(|e.options| + 1)]);
      SameKindsCount(elements, index, changed);
      elements := elements[index := changed];
    }

    /** The "X" of option `k`: `options.splice(k, 1)`. */
    method RemoveOption(index: int, k: int)
      requires Valid() && 0 <= index < |elements| && 0 <= k < |elements[index].options|
      modifies this
      ensures Valid()
      ensures elements == old(elements)[index := old(elements)[index].(
                options := old(elements)[index].options[..k] + old(elements)[index].options[k + 1..])]
      ensures |elements[index].options| == |old(elements)[index].options| - 1
      ensures elementCounts == old(elementCounts) && selected == old(selected)
      ensures formName == old(formName) && description == old(description) && templateId == old(templateId)
    {
      var e := elements[index];
      var changed := e.(options := e.options[..k] + e.options[k + 1..]);
      SameKindsCount(elements, index, changed);
      elements := elements[index := changed];
    }

    /** Editing the text of option `k`: `options[k] = value`. */
    method SetOption(index: int, k: int, value: string)
      requires Valid() && 0 <= index < |elements| && 0 <= k < |elements[index].options|
      modifies this
      ensures Valid()
      ensures elements == old(elements)[index := old(elements)[index].(options := old(elements)[index].options[k := value])]
      ensures elementCounts == old(elementCounts) && selected == old(selected)
      ensures formName == old(formName) && description == old(description) && templateId == old(templateId)
    {
      var e := elements[index];
      var changed := e.(options := e.options[k := value]);
      SameKindsCount(elements, index, changed);
      elements := elements[index := changed];
    }
  }

  /** Replacing an element by one of the same type keeps every count and the
      set of types. */
  lemma {:induction false} SameKindsCount(es: seq<Element>, index: int, e: Element)
    requires 0 <= index < |es| && e.kind == es[index].kind
    ensures Kinds(es[index := e]) == Kinds(es)
    ensures forall t :: CountOf(es[index := e], t) == CountOf(es, t)
    decreases |es|
  {
    var es' := es[index := e];
    forall t ensures CountOf(es', t) == CountOf(es, t) {
      SameKindCount(es, index, e, t);
    }
    forall k | k in Kinds(es') ensures k in Kinds(es) {
      var x :| x in es' && x.kind == k;
      var i :| 0 <= i < |es'| && es'[i] == x;
      assert es[i].kind == k;
    }
    forall k | k in Kinds(es) ensures k in Kinds(es') {
      var x :| x in es && x.kind == k;
      var i :| 0 <= i < |es| && es[i] == x;
      assert es'[i].kind == k;
    }
  }

  lemma {:induction false} SameKindCount(es: seq<Element>, index: int, e: Element, t: string)
    requires 0 <= index < |es| && e.kind == es[index].kind
    ensures CountOf(es[index := e], t) == CountOf(es, t)
    decreases |es|
  {
    var n := |es|;
    var es' := es[index := e];
    assert es'[..n - 1] == if index < n - 1 then es[..n - 1][index := e] else es[..n - 1];
    if index < n - 1 {
      SameKindCount(es[..n - 1], index, e, t);
    }
  }

  /** The names the first two text fields get. */
  lemma TextFieldNames()
    ensures "text" in KnownKinds
    ensures TypeName("text") + Text.IntToString(1) == "TextField1"
    ensures TypeName("text") + Text.IntToString(2) == "TextField2"
  {
    assert TypeName("text") == "TextField";
    assert Text.IntToString(1) == "1";
    assert Text.IntToString(2) == "2";
  }

  /** Removing id 1 from the two text fields drops the first and finds it. */
  lemma RemoveFirstOfTwo(e1: Element, e2: Element)
    requires e1.id == 1 && e2.id == 2
    ensures FirstWithId([e1, e2], 1) == Some(e1)
    ensures Without([e1, e2], 1) == [e2]
  {
    assert [e1, e2][..1] == [e1];
    assert FirstWithId([e1], 1) == Some(e1);
    assert Without([e1], 1) == [];
  }

  /** A new page with two text fields added, at ids 1 and 2. */
  method TwoTextFields() returns (page: EditorPage)
    ensures fresh(page)
    ensures page.Valid()
    ensures page.elements == [NewElement(1, "text", "TextField1"), NewElement(2, "text", "TextField2")]
    ensures page.elementCounts["text"] == 2
  {
    page := new EditorPage("");
    TextFieldNames();
    page.AddElement("text", 1);
    assert page.elementCounts["text"] == 1;
    page.AddElement("text", 2);
  }

  /** Generated names are not unique: after adding two text fields and
      removing the first, the next text field gets the second one's name. */
  method NamesRepeat() returns (first: string, second: string)
    ensures first == second == "TextField2"
  {
    var page := TwoTextFields();
    TextFieldNames();
    var e1 := NewElement(1, "text", "TextField1");
    var e2 := NewElement(2, "text", "TextField2");
    RemoveFirstOfTwo(e1, e2);
    page.RemoveElement(1);
    assert page.elementCounts["text"] == 1;
    assert page.elements == [e2];
    page.AddElement("text", 3);
    assert page.elements == [e2, NewElement(3, "text", "TextField2")];
    first := page.elements[0].name;
    second := page.elements[1].name;
  }


}
