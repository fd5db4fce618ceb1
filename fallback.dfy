/**
 * The textarea fallback writer (src/core/fallback.ts): put a hidden,
 * read-only textarea holding the text into the document body, select it,
 * run the legacy copy command, and clean up whatever happens.
 *
 * The browser calls it makes are injected as outcomes (`DomBehaviour`);
 * the document is an object whose body is a sequence of elements.
 */
module Fallback {
  import opened CopyTypes

  /** The inline style properties the writer sets on the textarea. */
  datatype Style = Style(position: string, top: string, left: string, opacity: string, whiteSpace: string)

  /** A freshly created element's style: nothing set. */
  const NoStyle: Style := Style("", "", "", "", "")

  /** Fixed, shifted off the viewport, invisible, whitespace-preserving. */
  const OffScreen: Style := Style("fixed", "0", "-9999px", "0", "pre")

  /** A textarea element, identified by `id` within its document. */
  datatype Element = TextArea(id: nat, value: string, readOnly: bool, style: Style)

  /** The document's text selection: nothing, or a range of one element's value. */
  datatype Selection = NoSelection | Selected(element: nat, start: nat, end: nat)

  /** A DOM call that either returns or throws a cause. */
  datatype Step = Completes | Throws(cause: Cause)

  /** `document.execCommand?.("copy")`: missing, returns a boolean, or throws. */
  datatype Command = CommandAbsent | CommandReturns(copied: bool) | CommandThrows(cause: Cause)

  /** `window.getSelection?.()?.removeAllRanges?.()`: clears, is missing somewhere on the chain, or throws. */
  datatype Cleanup = RangesRemoved | CleanupAbsent | CleanupThrows

  /** How the browser answers each call the writer makes, in call order. */
  datatype DomBehaviour = DomBehaviour(
    focus: Step,
    select: Step,
    setSelectionRange: Step,
    command: Command,
    cleanup: Cleanup)

  /** The writer's `{ ok, error? }`. */
  datatype FallbackResult = FallbackResult(ok: bool, error: Option<Cause>)

  predicate Attached(body: seq<Element>, id: nat) {
    exists k | 0 <= k < |body| :: body[k].id == id
  }

  /** The body with the element `id` taken out (`parentNode.removeChild`). */
  function RemoveId(body: seq<Element>, id: nat): (r: seq<Element>)
    ensures !Attached(r, id)
    ensures |r| <= |body|
    ensures !Attached(body, id) ==> r == body
    ensures forall e :: e in r <==> e in body && e.id != id
  {
    if body == [] then []
    else (if body[0].id == id then [] else [body[0]]) + RemoveId(body[1..], id)
  }

  /** Appending a fresh element and removing it by its id restores the body exactly. */
  lemma {:induction false} RemoveAppended(body: seq<Element>, e: Element)
    requires !Attached(body, e.id)
    ensures RemoveId(body + [e], e.id) == body
  {
    if body == [] {
      assert RemoveId([e], e.id) == [] + RemoveId([], e.id);
    } else {
      assert (body + [e])[1..] == body[1..] + [e];
      assert !Attached(body[1..], e.id) by {
        forall k | 0 <= k < |body[1..]| ensures body[1..][k].id != e.id {
          assert body[1..][k] == body[k + 1];
        }
      }
      RemoveAppended(body[1..], e);
    }
  }

  /**
   * The writer's result, as a function of whether a document exists and of
   * the browser's behaviour: the first throwing call in the try block
   * decides a failure with its cause; otherwise the command's boolean is the
   * outcome (false when the command is missing). The cleanup is not an
   * argument of anything here.
   */
  function FallbackOutcome(hasDocument: bool, b: DomBehaviour): (r: FallbackResult)
    ensures !hasDocument ==> r == FallbackResult(false, Some(NoDocumentError))
    ensures r.ok <==> hasDocument && b.focus.Completes? && b.select.Completes?
                      && b.setSelectionRange.Completes? && b.command == CommandReturns(true)
    ensures r.ok ==> r.error.None?
    ensures hasDocument && b.focus.Throws? ==> r.error == Some(b.focus.cause)
    ensures hasDocument && b.focus.Completes? && b.select.Throws? ==> r.error == Some(b.select.cause)
    ensures hasDocument && b.focus.Completes? && b.select.Completes? && b.setSelectionRange.Throws?
            ==> r.error == Some(b.setSelectionRange.cause)
    ensures hasDocument && b.focus.Completes? && b.select.Completes? && b.setSelectionRange.Completes?
            ==> r.error == (if b.command.CommandThrows? then Some(b.command.cause) else None)
  {
    if !hasDocument then FallbackResult(false, Some(NoDocumentError))
    else if b.focus.Throws? then FallbackResult(false, Some(b.focus.cause))
    else if b.select.Throws? then FallbackResult(false, Some(b.select.cause))
    else if b.setSelectionRange.Throws? then FallbackResult(false, Some(b.setSelectionRange.cause))
    else match b.command
      case CommandAbsent => FallbackResult(false, None)
      case CommandReturns(copied) => FallbackResult(copied, None)
      case CommandThrows(c) => FallbackResult(false, Some(c))
  }

  /** Whatever the selection cleanup does, the writer's result is the same. */
  lemma CleanupNeverChangesOutcome(hasDocument: bool, b: DomBehaviour, c: Cleanup)
    ensures FallbackOutcome(hasDocument, b.(cleanup := c)) == FallbackOutcome(hasDocument, b)
  {
  }

  /** A document: its body's children in order, and the current text selection. */
  class Document {
    var body: seq<Element>
    var nextId: nat
    var selection: Selection
    /** Every element ever appended to the body, oldest first. */
    ghost var appended: seq<Element>

    /** Every element in the body was created by this document, so new ids are fresh. */
    ghost predicate Valid()
      reads this
    {
      forall k | 0 <= k < |body| :: body[k].id < nextId
    }

    /** A document whose body holds `children`; ids from `freshFrom` on are unused. */
    constructor (children: seq<Element>, sel: Selection, freshFrom: nat)
      requires forall k | 0 <= k < |children| :: children[k].id < freshFrom
      ensures Valid() && body == children && selection == sel && nextId == freshFrom && appended == []
    {
      body := children;
      selection := sel;
      nextId := freshFrom;
      appended := [];
    }

    /** `document.createElement("textarea")`: a new, empty element with a fresh id. */
    method CreateTextArea() returns (e: Element)
      requires Valid()
      modifies this`nextId
      ensures Valid() && nextId == old(nextId) + 1
      ensures e == TextArea(old(nextId), "", false, NoStyle) && !Attached(body, e.id)
    {
      e := TextArea(nextId, "", false, NoStyle);
      nextId := nextId + 1;
    }

    /** `body.appendChild(e)` for an element not yet in the body (a DOM append of an attached node would move it). */
    method AppendChild(e: Element)
      requires Valid() && e.id < nextId && !Attached(body, e.id)
      modifies this`body, this`appended
      ensures Valid() && body == old(body) + [e] && appended == old(appended) + [e]
    {
      body := body + [e];
      appended := appended + [e];
    }

    /** `e.parentNode.removeChild(e)` for the element with this id. */
    method RemoveChild(id: nat)
      requires Valid()
      modifies this`body
      ensures Valid() && body == RemoveId(old(body), id)
    {
      RemoveIdKeepsIds(body, id, nextId);
      body := RemoveId(body, id);
    }
  }

  lemma {:induction false} RemoveIdKeepsIds(body: seq<Element>, id: nat, bound: nat)
    requires forall k | 0 <= k < |body| :: body[k].id < bound
    ensures forall k | 0 <= k < |RemoveId(body, id)| :: RemoveId(body, id)[k].id < bound
  {
    if body != [] {
      RemoveIdKeepsIds(body[1..], id, bound);
    }
  }

  /**
   * `copyViaExecCommand(text)`. A null `doc` is a host without a document.
   * The result is FallbackOutcome; the body ends as it started; exactly one
   * element, the read-only off-screen textarea holding `text`, was appended;
   * the selection is cleared only if the cleanup call succeeded.
   */
  method CopyViaExecCommand(doc: Document?, text: string, b: DomBehaviour) returns (r: FallbackResult)
    requires doc != null ==> doc.Valid()
    modifies doc
    ensures r == FallbackOutcome(doc != null, b)
    ensures doc != null ==> doc.Valid() && doc.body == old(doc.body)
    ensures doc != null ==> doc.appended == old(doc.appended) + [TextArea(old(doc.nextId), text, true, OffScreen)]
    ensures doc != null && b.cleanup == RangesRemoved ==> doc.selection == NoSelection
    ensures doc != null && b.cleanup != RangesRemoved && b.focus.Completes? && b.select.Completes?
            ==> doc.selection == Selected(old(doc.nextId), 0, |text|)
    ensures doc != null && b.cleanup != RangesRemoved && !(b.focus.Completes? && b.select.Completes?)
            ==> doc.selection == old(doc.selection)
  {
    if doc == null {
      return FallbackResult(false, Some(NoDocumentError));
    }

    var textarea := doc.CreateTextArea();
    textarea := textarea.(value := text, readOnly := true);
    textarea := textarea.(style := OffScreen);
    ghost var before := doc.body;
    doc.AppendChild(textarea);

    var ok := false;
    var thrown: Option<Cause> := None;

    // try
    if b.focus.Throws? {
      thrown := Some(b.focus.cause);
    }
    if thrown.None? {
      if b.select.Throws? {
        thrown := Some(b.select.cause);
      } else {
        doc.selection := Selected(textarea.id, 0, |textarea.value|);
      }
    }
    if thrown.None? {
      if b.setSelectionRange.Throws? {
        thrown := Some(b.setSelectionRange.cause);
      } else {
        doc.selection := Selected(textarea.id, 0, |textarea.value|);
      }
    }
    if thrown.None? {
      match b.command
      case CommandAbsent => ok := false;
      case CommandReturns(copied) => ok := copied;
      case CommandThrows(c) => thrown := Some(c);
    }

    // finally: a failing selection cleanup is swallowed
    assert doc.body[|before|] == textarea;
    if b.cleanup == RangesRemoved {
      doc.selection := NoSelection;
    }
    if Attached(doc.body, textarea.id) {
      doc.RemoveChild(textarea.id);
      RemoveAppended(before, textarea);
    }

    if thrown.Some? {
      return FallbackResult(false, thrown);
    }
    return FallbackResult(ok, None);
  }
}
