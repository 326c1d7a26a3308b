/**
  The opaque keyset cursors: a pair is joined by a separator and wrapped. Base64, time,
  integer and UUID formatting are library code; they enter as functions, of which only
  that they can be undone, and where the separator cannot occur, is used.
 */
module Cursor {
  import opened Wrappers

  /** Times are counted from the zero time, which is 0 and means "from the start". */
  type Time = int
  type Uuid = nat

  datatype Formats = Formats(
    wrap: string -> string, unwrap: string -> Option<string>,
    formatTime: Time -> string, parseTime: string -> Option<Time>,
    formatInt: int -> string, parseInt: string -> Option<int>,
    formatUuid: Uuid -> string, parseUuid: string -> Option<Uuid>)

  ghost predicate Sound(f: Formats) {
    && (forall s :: f.unwrap(f.wrap(s)) == Some(s) && (s != "" ==> f.wrap(s) != ""))
    && (forall t :: f.parseTime(f.formatTime(t)) == Some(t) && '|' !in f.formatTime(t))
    && (forall n :: f.parseInt(f.formatInt(n)) == Some(n) && f.formatInt(n) != "")
    && (forall u: Uuid :: f.parseUuid(f.formatUuid(u)) == Some(u) && '|' !in f.formatUuid(u) && f.formatUuid(u) != "")
  }

  /** The first separator, as strings.Cut finds it; -1 when there is none. */
  function FirstBar(s: string): (i: int)
    ensures -1 <= i < |s|
    ensures i < 0 <==> '|' !in s
    ensures i >= 0 ==> s[i] == '|' && '|' !in s[..i]
  {
    if s == "" then -1
    else if s[0] == '|' then 0
    else
      var i := FirstBar(s[1..]);
      assert s == [s[0]] + s[1..];
      assert i >= 0 ==> s[..i + 1] == [s[0]] + s[1..][..i];
      if i < 0 then -1 else i + 1
  }

  /** The last separator; -1 when there is none. */
  function LastBar(s: string): (i: int)
    ensures -1 <= i < |s|
    ensures i < 0 <==> '|' !in s
    ensures i >= 0 ==> s[i] == '|' && '|' !in s[i + 1..]
  {
    if s == "" then -1
    else if s[|s| - 1] == '|' then |s| - 1
    else
      var i := LastBar(s[..|s| - 1]);
      assert s == s[..|s| - 1] + [s[|s| - 1]];
      assert i >= 0 ==> s[i + 1..] == s[..|s| - 1][i + 1..] + [s[|s| - 1]];
      i
  }

  function EncodeCursor(f: Formats, at: Time, id: string): string {
    if at == 0 then "" else f.wrap(f.formatTime(at) + "|" + id)
  }

  function DecodeCursor(f: Formats, token: string): (Time, string) {
    if token == "" then (0, "")
    else
      match f.unwrap(token)
      case None => (0, "")
      case Some(raw) =>
        var i := FirstBar(raw);
        if i < 0 then (0, "")
        else
          match f.parseTime(raw[..i])
          case None => (0, "")
          case Some(t) => (t, raw[i + 1..])
  }

  function DecodeCursorInt(f: Formats, token: string): (Time, int) {
    var (at, id) := DecodeCursor(f, token);
    if id == "" then (at, 0)
    else match f.parseInt(id) case None => (at, 0) case Some(n) => (at, n)
  }

  function DecodeCursorUuid(f: Formats, token: string): (Time, Option<Uuid>) {
    var (at, id) := DecodeCursor(f, token);
    if id == "" then (at, None) else (at, f.parseUuid(id))
  }

  function EncodeCursorNameId(f: Formats, name: string, id: string): string {
    if name == "" then "" else f.wrap(name + "|" + id)
  }

  function DecodeCursorNameId(f: Formats, token: string): (string, Uuid) {
    if token == "" then ("", 0)
    else
      match f.unwrap(token)
      case None => ("", 0)
      case Some(raw) =>
        var i := LastBar(raw);
        if i < 0 then ("", 0)
        else
          match f.parseUuid(raw[i + 1..])
          case None => ("", 0)
          case Some(id) => (raw[..i], id)
  }

  // ---------------------------------------------------------------- round trips

  lemma {:induction false} BarAfterHead(head: string, tail: string)
    requires '|' !in head
    ensures FirstBar(head + "|" + tail) == |head|
  {
    var s := head + "|" + tail;
    if head != "" {
      BarAfterHead(head[1..], tail);
      assert s[1..] == head[1..] + "|" + tail;
    }
  }

  lemma {:induction false} BarBeforeTail(head: string, tail: string)
    requires '|' !in tail
    ensures LastBar(head + "|" + tail) == |head|
  {
    var s := head + "|" + tail;
    if tail != "" {
      var n := |tail| - 1;
      BarBeforeTail(head, tail[..n]);
      assert s[..|s| - 1] == head + "|" + tail[..n];
    }
  }

  lemma {:induction false} BarInsideHead(head: string, tail: string)
    requires '|' in head
    ensures FirstBar(head + tail) < |head|
  {
    if head[0] != '|' {
      assert head == [head[0]] + head[1..];
      BarInsideHead(head[1..], tail);
      assert (head + tail)[1..] == head[1..] + tail;
    }
  }

  /** Whatever the id half holds, a cursor with a non-zero time decodes to what it encoded; a zero time encodes to nothing. */
  lemma CursorRoundTrip(f: Formats, at: Time, id: string)
    requires Sound(f)
    ensures DecodeCursor(f, EncodeCursor(f, at, id)) == if at == 0 then (0, "") else (at, id)
  {
    if at != 0 {
      var head := f.formatTime(at);
      var raw := head + "|" + id;
      BarAfterHead(head, id);
      assert raw[..|head|] == head && raw[|head| + 1..] == id;
      assert f.unwrap(f.wrap(raw)) == Some(raw);
    }
  }

  lemma EventCursorRoundTrip(f: Formats, at: Time, n: int)
    requires Sound(f) && at != 0
    ensures EncodeCursor(f, at, f.formatInt(n)) != "" && DecodeCursorInt(f, EncodeCursor(f, at, f.formatInt(n))) == (at, n)
  {
    CursorRoundTrip(f, at, f.formatInt(n));
    assert f.formatTime(at) + "|" + f.formatInt(n) != "" && f.parseInt(f.formatInt(n)) == Some(n);
  }

  lemma ResourceCursorRoundTrip(f: Formats, at: Time, u: Uuid)
    requires Sound(f) && at != 0
    ensures DecodeCursorUuid(f, EncodeCursor(f, at, f.formatUuid(u))) == (at, Some(u))
  {
    CursorRoundTrip(f, at, f.formatUuid(u));
    assert f.parseUuid(f.formatUuid(u)) == Some(u);
  }

  /** A leaf cursor decodes to its name and id for every non-empty name, separators in the name included. */
  lemma NameCursorRoundTrip(f: Formats, name: string, u: Uuid)
    requires Sound(f) && name != ""
    ensures EncodeCursorNameId(f, name, f.formatUuid(u)) != ""
    ensures DecodeCursorNameId(f, EncodeCursorNameId(f, name, f.formatUuid(u))) == (name, u)
  {
    var tail := f.formatUuid(u);
    var raw := name + "|" + tail;
    BarBeforeTail(name, tail);
    assert raw[..|name|] == name && raw[|name| + 1..] == tail;
    assert f.unwrap(f.wrap(raw)) == Some(raw) && f.parseUuid(tail) == Some(u);
  }

  /** Splitting a leaf cursor at the first separator instead recovers the name exactly when it holds none. */
  lemma FirstBarWouldTruncate(name: string, tail: string)
    requires '|' !in tail
    ensures var raw := name + "|" + tail;
            FirstBar(raw) >= 0 && (raw[..FirstBar(raw)] == name <==> '|' !in name)
  {
    var raw := name + "|" + tail;
    if '|' !in name {
      BarAfterHead(name, tail);
      assert raw[..|name|] == name;
    } else {
      assert raw == name + ("|" + tail);
      BarInsideHead(name, "|" + tail);
    }
  }
}
