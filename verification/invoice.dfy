/**
 What the run needs of one invoice besides its layout: the path it is written
 to, `<invoice directory>/Faktura-<Invoice Number>.pdf`, and the record fields
 the renderer reads (a missing one stops it with KeyError before anything is
 written). Page layout, fonts and the totals arithmetic are not modelled.
 */
module Invoice {
  import opened Sheet

  const Separator: char := '/'
  const Prefix: string := "Faktura-"
  const Extension: string := ".pdf"

  /** `os.path.join(dir, name)` with POSIX separators: an absolute `name`
      replaces `dir`; otherwise `name` follows `dir`, with one separator
      added unless `dir` is empty or already ends in one. */
  function Join(dir: string, name: string): (p: string)
    ensures |name| > 0 && name[0] == Separator ==> p == name
    ensures !(|name| > 0 && name[0] == Separator) ==>
              |dir| + |name| <= |p| <= |dir| + |name| + 1 && p[..|dir|] == dir && p[|p| - |name|..] == name
    ensures !(|name| > 0 && name[0] == Separator) && |p| > |dir| + |name| ==> p[|dir|] == Separator
  {
    if |name| > 0 && name[0] == Separator then name
    else if |dir| == 0 || dir[|dir| - 1] == Separator then dir + name
    else dir + [Separator] + name
  }

  /** Base name of the invoice file for an invoice number. */
  function FileName(number: string): string {
    Prefix + number + Extension
  }

  /** The output path built for an unsent record. */
  function InvoicePath(dir: string, number: string): (p: string)
    ensures |dir| + |FileName(number)| <= |p| && p[..|dir|] == dir
    ensures p[|p| - |FileName(number)|..] == FileName(number)
  {
    Join(dir, FileName(number))
  }

  /** What `Join` puts in front of a relative name under `dir`. */
  function DirPrefix(dir: string): string {
    if |dir| == 0 || dir[|dir| - 1] == Separator then dir else dir + [Separator]
  }

  /** Joining a relative name is exactly `os.path.join`'s: the name right
      after `DirPrefix(dir)`, so a separator is added exactly when `dir` is
      non-empty and does not already end in one. */
  lemma {:induction false} JoinRelative(dir: string, name: string)
    ensures !(|name| > 0 && name[0] == Separator) ==> Join(dir, name) == DirPrefix(dir) + name
    ensures !(|name| > 0 && name[0] == Separator) ==>
              (|Join(dir, name)| == |dir| + |name| + 1 <==> |dir| > 0 && dir[|dir| - 1] != Separator)
  {
  }

  /** The invoice number an output path under `dir` was built from, if it has
      the invoice file shape; the inverse of `InvoicePath`. */
  function ParseInvoicePath(dir: string, p: string): Option<string> {
    var head := DirPrefix(dir) + Prefix;
    if |head| + |Extension| <= |p| && p[..|head|] == head && p[|p| - |Extension|..] == Extension
    then Some(p[|head|..|p| - |Extension|])
    else None
  }

  /** A relative invoice name lands right after the directory prefix. */
  lemma {:induction false} InvoicePathShape(dir: string, number: string)
    ensures InvoicePath(dir, number) == (DirPrefix(dir) + Prefix) + number + Extension
  {
    assert FileName(number)[0] == Prefix[0] != Separator;
    assert DirPrefix(dir) + FileName(number) == (DirPrefix(dir) + Prefix) + number + Extension;
  }

  /** Cutting a known head and tail off `head + mid + tail` leaves `mid`. */
  lemma {:induction false} Unframe(head: string, mid: string, tail: string)
    ensures var p := head + mid + tail;
            && |head| + |tail| <= |p| && p[..|head|] == head && p[|p| - |tail|..] == tail
            && p[|head|..|p| - |tail|] == mid
  {
    var p := head + mid + tail;
    assert p[..|head|] == head;
    assert p[|p| - |tail|..] == tail;
    assert p[|head|..|p| - |tail|] == mid;
  }

  /** A string that starts with `head` and ends with `tail`, not overlapping,
      is `head`, its middle, then `tail`. */
  lemma {:induction false} Reframe(head: string, tail: string, p: string)
    requires |head| + |tail| <= |p| && p[..|head|] == head && p[|p| - |tail|..] == tail
    ensures p == head + p[|head|..|p| - |tail|] + tail
  {
    assert p == p[..|head|] + p[|head|..|p| - |tail|] + p[|p| - |tail|..];
  }

  /** The path built for a number parses back to that number. */
  lemma {:induction false} ParseInvoicePathOfInvoicePath(dir: string, number: string)
    ensures ParseInvoicePath(dir, InvoicePath(dir, number)) == Some(number)
  {
    InvoicePathShape(dir, number);
    Unframe(DirPrefix(dir) + Prefix, number, Extension);
  }

  /** A path that parses to a number is the path built for that number. */
  lemma {:induction false} InvoicePathOfParseInvoicePath(dir: string, p: string)
    requires ParseInvoicePath(dir, p).Some?
    ensures InvoicePath(dir, ParseInvoicePath(dir, p).value) == p
  {
    var number := ParseInvoicePath(dir, p).value;
    InvoicePathShape(dir, number);
    Reframe(DirPrefix(dir) + Prefix, Extension, p);
  }

  /** Under one directory, two invoice numbers get the same output path
      exactly when they are equal (paths compared as strings). */
  lemma {:induction false} InvoicePathInjective(dir: string, n1: string, n2: string)
    ensures InvoicePath(dir, n1) == InvoicePath(dir, n2) <==> n1 == n2
  {
    ParseInvoicePathOfInvoicePath(dir, n1);
    ParseInvoicePathOfInvoicePath(dir, n2);
  }

  /** The fields `create_invoice` reads, in the order it reads them; the footer
      reads "Due Date" when the document is closed for output. */
  const RenderFields: seq<string> :=
    ["Date", "Invoice Number", "Week", "Place", "Description", "Case Number",
     "Hours Worked", "Hourly Rate", "Due Date"]

  /** Index in `fields` of the first one the record lacks: where reading the
      fields in order raises KeyError. */
  function FirstMissing(r: Record, fields: seq<string>): (m: Option<nat>)
    ensures m.None? <==> forall k :: k in fields ==> k in r.keys
    ensures m.Some? ==> m.value < |fields| && fields[m.value] !in r.keys
    ensures m.Some? ==> forall i :: 0 <= i < m.value ==> fields[i] in r.keys
  {
    if |fields| == 0 then None
    else if fields[0] !in r.keys then Some(0)
    else match FirstMissing(r, fields[1..])
      case None => None
      case Some(i) => Some(i + 1)
  }
}
