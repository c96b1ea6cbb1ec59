/**
 * The value-level logic of App.tsx: the blank-body test behind the submit
 * guard, the fallback title of a history entry, the most-recent-first
 * history capped at 20 entries, and the single storage slot the history is
 * written through to.
 */
module AppLogic {
  import opened Wrappers
  import opened Types

  /** Most entries the history keeps. */
  const Cap: nat := 20
  /** Characters of the body a fallback title keeps. */
  const TitleChars: nat := 30
  const Ellipsis := "..."

  function Min(a: int, b: int): int { if a <= b then a else b }

  // ---------------------------------------------------------------------------
  // `body.trim()`

  /** The characters JavaScript's `trim` strips: WhiteSpace and LineTerminator. */
  predicate IsWhitespace(c: char)
  {
    var n := c as int;
    n == 0x09 || n == 0x0A || n == 0x0B || n == 0x0C || n == 0x0D || n == 0x20 ||
    n == 0xA0 || n == 0x1680 || (0x2000 <= n <= 0x200A) || n == 0x2028 || n == 0x2029 ||
    n == 0x202F || n == 0x205F || n == 0x3000 || n == 0xFEFF
  }

  predicate AllWhitespace(s: string)
  {
    forall i :: 0 <= i < |s| ==> IsWhitespace(s[i])
  }

  /** Drops leading whitespace. */
  function TrimStart(s: string): (r: string)
    ensures |r| <= |s|
  {
    if s != [] && IsWhitespace(s[0]) then TrimStart(s[1..]) else s
  }

  /** What `TrimStart` leaves is a suffix that starts with a non-blank, after only blanks. */
  lemma {:induction false} TrimStartSpec(s: string)
    ensures var r := TrimStart(s);
      r == s[|s| - |r|..] && AllWhitespace(s[..|s| - |r|]) && (r == [] || !IsWhitespace(r[0]))
  {
    if s != [] && IsWhitespace(s[0]) {
      TrimStartSpec(s[1..]);
      var r := TrimStart(s);
      var k := |s| - |r|;
      assert s[1..][..k - 1] == s[1..k];
      assert forall i :: 1 <= i < k ==> s[..k][i] == s[1..][..k - 1][i - 1];
    }
  }

  /** Drops trailing whitespace. */
  function TrimEnd(s: string): (r: string)
    ensures |r| <= |s|
  {
    if s != [] && IsWhitespace(s[|s| - 1]) then TrimEnd(s[..|s| - 1]) else s
  }

  /** What `TrimEnd` leaves is a prefix that ends with a non-blank, before only blanks. */
  lemma {:induction false} TrimEndSpec(s: string)
    ensures var r := TrimEnd(s);
      r == s[..|r|] && AllWhitespace(s[|r|..]) && (r == [] || !IsWhitespace(r[|r| - 1]))
  {
    if s != [] && IsWhitespace(s[|s| - 1]) {
      var init := s[..|s| - 1];
      TrimEndSpec(init);
      var r := TrimEnd(s);
      assert init[..|r|] == s[..|r|];
      assert forall i :: 0 <= i < |s| - |r| - 1 ==> s[|r|..][i] == init[|r|..][i];
    }
  }

  function Trim(s: string): string
  {
    TrimEnd(TrimStart(s))
  }

  /** `!body.trim()`: the trimmed text is the empty, falsy string. */
  predicate IsBlank(s: string)
  {
    Trim(s) == []
  }

  /** A body is blank exactly when every character of it is whitespace. */
  lemma BlankIffAllWhitespace(s: string)
    ensures IsBlank(s) <==> AllWhitespace(s)
  {
    TrimStartSpec(s);
    TrimEndSpec(TrimStart(s));
    if !AllWhitespace(s) {
      var t := TrimStart(s);
      var i :| 0 <= i < |s| && !IsWhitespace(s[i]);
      assert t[i - (|s| - |t|)] == s[i];
    }
  }

  // ---------------------------------------------------------------------------
  // The new entry's title: `subject || (body.slice(0, 30) + '...')`

  function EntryTitle(subject: string, body: string): (r: string)
    ensures subject != [] ==> r == subject
    ensures subject == [] ==>
      var kept := |r| - |Ellipsis|;
      0 <= kept <= TitleChars && kept <= |body| && r[..kept] == body[..kept] && r[kept..] == Ellipsis &&
      (kept == TitleChars || kept == |body|)
  {
    if subject != [] then subject else body[..Min(TitleChars, |body|)] + Ellipsis
  }

  /** A fallback title is never empty, keeps the whole of a short body and cuts a long one at 30. */
  lemma FallbackTitleShape(body: string)
    ensures EntryTitle([], body) != []
    ensures |body| <= TitleChars ==> EntryTitle([], body) == body + Ellipsis
    ensures |body| >= TitleChars ==> |EntryTitle([], body)| == TitleChars + |Ellipsis|
  {
  }

  /** The record a successful analysis adds; the id and time come from the clock. */
  function NewEntry(id: string, timestamp: int, subject: string, body: string,
                    result: PhishingAnalysis): (e: EmailCheckHistory)
    ensures e.analysis == result && e.id == id && e.timestamp == timestamp
    ensures e.subject == EntryTitle(subject, body)
  {
    EmailCheckHistory(id, timestamp, EntryTitle(subject, body), result)
  }

  // ---------------------------------------------------------------------------
  // The history cache: `[newEntry, ...prev].slice(0, 20)`

  function Push(entry: EmailCheckHistory, prev: seq<EmailCheckHistory>): (r: seq<EmailCheckHistory>)
    ensures |r| == Min(|prev| + 1, Cap) && |r| <= Cap
    ensures r[0] == entry
    ensures r[1..] == prev[..|r| - 1]
  {
    ([entry] + prev)[..Min(|prev| + 1, Cap)]
  }

  /** A full history loses exactly its oldest entry. */
  lemma PushEvictsOldest(entry: EmailCheckHistory, prev: seq<EmailCheckHistory>)
    requires |prev| == Cap
    ensures Push(entry, prev) == [entry] + prev[..Cap - 1]
  {
  }

  /** A history with room keeps every old entry behind the new one. */
  lemma PushKeepsAll(entry: EmailCheckHistory, prev: seq<EmailCheckHistory>)
    requires |prev| < Cap
    ensures Push(entry, prev) == [entry] + prev
  {
  }

  function Reversed<T>(s: seq<T>): (r: seq<T>)
    ensures |r| == |s|
  {
    if s == [] then [] else [s[|s| - 1]] + Reversed(s[..|s| - 1])
  }

  /** The first `Cap` elements, or all of them when there are fewer. */
  function Newest(s: seq<EmailCheckHistory>): seq<EmailCheckHistory>
  {
    s[..Min(|s|, Cap)]
  }

  /** The history after a run of successful analyses, `entries` in completion order. */
  function PushAll(entries: seq<EmailCheckHistory>, prev: seq<EmailCheckHistory>): seq<EmailCheckHistory>
  {
    if entries == [] then prev
    else Push(entries[|entries| - 1], PushAll(entries[..|entries| - 1], prev))
  }

  lemma NewestCons(e: EmailCheckHistory, s: seq<EmailCheckHistory>)
    ensures Newest([e] + Newest(s)) == Newest([e] + s)
  {
  }

  /**
   * However many analyses succeed, the history holds the 20 most recent
   * entries, newest first, followed by as much of the old history as fits.
   */
  lemma {:induction false} PushAllNewest(entries: seq<EmailCheckHistory>, prev: seq<EmailCheckHistory>)
    requires entries != []
    ensures PushAll(entries, prev) == Newest(Reversed(entries) + prev)
    ensures |PushAll(entries, prev)| == Min(|entries| + |prev|, Cap)
  {
    var n := |entries|;
    var last, init := entries[n - 1], entries[..n - 1];
    assert Reversed(entries) == [last] + Reversed(init);
    if init == [] {
      assert Reversed(init) + prev == prev;
      assert Push(last, prev) == Newest([last] + prev);
    } else {
      PushAllNewest(init, prev);
      var mid := PushAll(init, prev);
      assert Push(last, mid) == Newest([last] + mid);
      NewestCons(last, Reversed(init) + prev);
      assert [last] + (Reversed(init) + prev) == Reversed(entries) + prev;
    }
  }

  // ---------------------------------------------------------------------------
  // The storage slot `phishguard_history`

  /**
   * What the slot holds: nothing, an empty string, a list that parses, or
   * text that does not parse. The JSON text itself is not modelled.
   */
  datatype Slot = Missing | EmptyText | Saved(entries: seq<EmailCheckHistory>) | Unparsable

  /** What the write-through effect stores for a history. */
  function Save(history: seq<EmailCheckHistory>): (s: Slot)
    ensures s.Saved?
  {
    Saved(history)
  }

  /** The load effect: only a slot that parses replaces the initial empty history. */
  function LoadHistory(slot: Slot): (h: seq<EmailCheckHistory>)
    ensures slot.Saved? ==> h == slot.entries
    ensures !slot.Saved? ==> h == []
  {
    match slot
    case Saved(entries) => entries
    case _ => []
  }

  /** A saved history reloads as the same entries in the same order. */
  lemma SaveLoadRoundTrip(history: seq<EmailCheckHistory>)
    ensures LoadHistory(Save(history)) == history
  {
  }

  /** After clearing, the slot is either removed or holds `[]`; either way it reloads empty. */
  lemma ClearedSlotLoadsEmpty(slot: Slot)
    requires slot == Missing || slot == Save([])
    ensures LoadHistory(slot) == []
  {
  }
}
