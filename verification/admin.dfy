/**
 * The administrator dashboard's classification and text helpers: the colour
 * of a consent status, the compliance badge bands, the label shown for a
 * camelCase metric key, the audit event marks, and the overview's excerpt
 * of the audit log.
 */
module Admin {

  /** The colour tones the dashboard's badges use. */
  datatype Tone = Accent | Destructive | Warning | Muted

  /** `getStatusColor`: granted, withdrawn and pending have their own tone;
      every other status is muted. */
  function GetStatusColor(status: string): (t: Tone)
    ensures t == Accent <==> status == "granted"
    ensures t == Destructive <==> status == "withdrawn"
    ensures t == Warning <==> status == "pending"
    ensures t == Muted <==> status !in {"granted", "withdrawn", "pending"}
  {
    if status == "granted" then Accent
    else if status == "withdrawn" then Destructive
    else if status == "pending" then Warning
    else Muted
  }

  /** The compliance badge: 95 and above is accent, from 85 up to 95 is
      warning, below 85 is destructive. */
  function ComplianceBadge(value: real): (t: Tone)
    ensures t == Accent <==> value >= 95.0
    ensures t == Warning <==> 85.0 <= value < 95.0
    ensures t == Destructive <==> value < 85.0
  {
    if value >= 95.0 then Accent
    else if value >= 85.0 then Warning
    else Destructive
  }

  /** How good a compliance tone is, worst first. */
  function BandRank(t: Tone): nat {
    match t
    case Destructive => 0
    case Warning => 1
    case Accent => 2
    case Muted => 0
  }

  // ---------------------------------------------------------------------------
  // Metric labels: key.replace(/([A-Z])/g, ' $1').trim()

  /** The characters the pattern `[A-Z]` matches. */
  predicate IsUpper(c: char) {
    'A' <= c <= 'Z'
  }

  /** The characters `String.prototype.trim` removes: the ECMAScript
      WhiteSpace and LineTerminator code points. */
  predicate IsTrimmable(c: char) {
    c == '\U{9}' || c == '\U{A}' || c == '\U{B}' || c == '\U{C}' || c == '\U{D}' ||
    c == ' ' || c == '\U{A0}' || c == '\U{1680}' || ('\U{2000}' <= c <= '\U{200A}') ||
    c == '\U{2028}' || c == '\U{2029}' || c == '\U{202F}' || c == '\U{205F}' || c == '\U{3000}' ||
    c == '\U{FEFF}'
  }

  /** The number of capitals in a string. */
  function CountUpper(s: string): (n: nat)
    ensures n <= |s|
  {
    if s == [] then 0 else (if IsUpper(s[0]) then 1 else 0) + CountUpper(s[1..])
  }

  /** The global replace: a space in front of every capital. */
  function SpaceCapitals(s: string): (r: string)
    ensures |r| == |s| + CountUpper(s)
  {
    if s == [] then []
    else (if IsUpper(s[0]) then [' ', s[0]] else [s[0]]) + SpaceCapitals(s[1..])
  }

  /** Leading trimmable characters removed. */
  function TrimStart(s: string): (r: string)
    ensures |r| <= |s|
  {
    if s != [] && IsTrimmable(s[0]) then TrimStart(s[1..]) else s
  }

  /** Trailing trimmable characters removed. */
  function TrimEnd(s: string): (r: string)
    ensures |r| <= |s|
  {
    if s != [] && IsTrimmable(s[|s| - 1]) then TrimEnd(s[..|s| - 1]) else s
  }

  /** `String.prototype.trim`: the result neither starts nor ends with
      whitespace. */
  function Trim(s: string): (r: string)
    ensures |r| <= |s|
    ensures r != [] ==> !IsTrimmable(r[0]) && !IsTrimmable(r[|r| - 1])
  {
    var t := TrimStart(s);
    TrimStartIsSuffix(s);
    TrimEndIsPrefix(t);
    TrimEnd(t)
  }

  /** The label shown for a metric key: a space before every capital, then
      trimmed, so it never starts or ends with whitespace. */
  function MetricLabel(key: string): (text: string)
    ensures |text| <= |key| + CountUpper(key)
    ensures text != [] ==> !IsTrimmable(text[0]) && !IsTrimmable(text[|text| - 1])
  {
    Trim(SpaceCapitals(key))
  }

  /** The string with every space deleted. */
  function RemoveSpaces(s: string): (r: string)
    ensures |r| <= |s|
  {
    if s == [] then [] else (if s[0] == ' ' then [] else [s[0]]) + RemoveSpaces(s[1..])
  }

  // ---------------------------------------------------------------------------
  // Audit events and consent records

  /** An audit log entry. */
  datatype AuditLog = AuditLog(id: string, action: string, user: string, details: string, timestamp: string, status: string)

  /** A consent record listed on the consents tab. */
  datatype ConsentRecord = ConsentRecord(id: string, user: string, business: string, kind: string,
                                         status: string, timestamp: string, encrypted: bool)

  /** The icon and background of an audit event: success, processed, or
      anything else. */
  datatype AuditMark = SuccessMark | ProcessedMark | AttentionMark

  function AuditMarkOf(status: string): (m: AuditMark)
    ensures m == SuccessMark <==> status == "success"
    ensures m == ProcessedMark <==> status == "processed"
    ensures m == AttentionMark <==> status != "success" && status != "processed"
  {
    if status == "success" then SuccessMark
    else if status == "processed" then ProcessedMark
    else AttentionMark
  }

  /** `auditLogs.slice(0, 4)`: the overview's excerpt, at most four events,
      the first ones, in their order. */
  function RecentAuditEvents(logs: seq<AuditLog>): (r: seq<AuditLog>)
    ensures |r| == if |logs| < 4 then |logs| else 4
    ensures forall i :: 0 <= i < |r| ==> r[i] == logs[i]
  {
    if |logs| <= 4 then logs else logs[..4]
  }

  /**
   * The consents tab's state. The filter selector updates `consentFilter`,
   * but the list renders every record whatever the filter holds.
   */
  class AdminPanel {
    var consentFilter: string

    constructor ()
      ensures consentFilter == "all"
    {
      consentFilter := "all";
    }

    /** The records the consents tab lists. */
    function ListedConsents(recentConsents: seq<ConsentRecord>): seq<ConsentRecord>
      reads this
    {
      recentConsents
    }

    /** The filter selector's change handler. */
    method SetConsentFilter(value: string)
      modifies this
      ensures consentFilter == value
      ensures forall rs :: ListedConsents(rs) == old(ListedConsents(rs))
      ensures forall rs :: ListedConsents(rs) == rs
    {
      consentFilter := value;
    }
  }

  // ---------------------------------------------------------------------------
  // Properties of the helpers

  /** A higher compliance value never gets a worse badge. */
  lemma ComplianceBadgeMonotone(v1: real, v2: real)
    requires v1 <= v2
    ensures BandRank(ComplianceBadge(v1)) <= BandRank(ComplianceBadge(v2))
  {
  }

  /** Deleting spaces undoes the inserted ones on a key that has no spaces. */
  lemma {:induction false} RemoveSpacesUndoesSpaceCapitals(key: string)
    requires forall i :: 0 <= i < |key| ==> key[i] != ' '
    ensures RemoveSpaces(SpaceCapitals(key)) == key
  {
    if key != [] {
      var head: string := if IsUpper(key[0]) then [' ', key[0]] else [key[0]];
      var rest := SpaceCapitals(key[1..]);
      assert SpaceCapitals(key) == head + rest;
      RemoveSpacesUndoesSpaceCapitals(key[1..]);
      RemoveSpacesAppend(head, rest);
      assert RemoveSpaces(head) == [key[0]] by {
        if IsUpper(key[0]) {
          assert head[1..] == [key[0]];
          assert RemoveSpaces(head[1..]) == [key[0]] + RemoveSpaces(head[1..][1..]);
        } else {
          assert RemoveSpaces(head) == [key[0]] + RemoveSpaces(head[1..]);
        }
      }
      assert key == [key[0]] + key[1..];
    }
  }

  /** Deleting spaces distributes over concatenation. */
  lemma {:induction false} RemoveSpacesAppend(a: string, b: string)
    ensures RemoveSpaces(a + b) == RemoveSpaces(a) + RemoveSpaces(b)
  {
    if a == [] {
      assert a + b == b;
    } else {
      assert (a + b)[0] == a[0];
      assert (a + b)[1..] == a[1..] + b;
      RemoveSpacesAppend(a[1..], b);
    }
  }

  /** Trimming only spaces does not change what remains after deleting spaces. */
  lemma {:induction false} RemoveSpacesIgnoresTrim(s: string)
    requires forall i :: 0 <= i < |s| ==> (IsTrimmable(s[i]) ==> s[i] == ' ')
    ensures RemoveSpaces(Trim(s)) == RemoveSpaces(s)
  {
    var t := TrimStart(s);
    var n := |s| - |t|;
    TrimStartIsSuffix(s);
    RemoveSpacesDropFront(s, n);
    assert forall i :: 0 <= i < |t| ==> t[i] == s[n + i];
    var u := TrimEnd(t);
    TrimEndIsPrefix(t);
    RemoveSpacesDropBack(t, |u|);
  }

  /** Deleting a leading run of trimmed characters from s. */
  lemma {:induction false} RemoveSpacesDropFront(s: string, n: nat)
    requires n <= |s|
    requires forall i :: 0 <= i < |s| ==> (IsTrimmable(s[i]) ==> s[i] == ' ')
    requires TrimStart(s) == s[n..]
    ensures RemoveSpaces(s[n..]) == RemoveSpaces(s)
    decreases |s|
  {
    if s != [] && IsTrimmable(s[0]) {
      assert TrimStart(s) == TrimStart(s[1..]);
      assert |TrimStart(s[1..])| <= |s| - 1;
      assert n >= 1;
      assert s[1..][n - 1..] == s[n..];
      RemoveSpacesDropFront(s[1..], n - 1);
    } else {
      assert TrimStart(s) == s;
      assert n == 0;
    }
  }

  /** Deleting a trailing run of trimmed characters from s. */
  lemma {:induction false} RemoveSpacesDropBack(s: string, n: nat)
    requires n <= |s|
    requires forall i :: 0 <= i < |s| ==> (IsTrimmable(s[i]) ==> s[i] == ' ')
    requires TrimEnd(s) == s[..n]
    ensures RemoveSpaces(s[..n]) == RemoveSpaces(s)
    decreases |s|
  {
    if s != [] && IsTrimmable(s[|s| - 1]) {
      var init := s[..|s| - 1];
      assert TrimEnd(s) == TrimEnd(init);
      assert n < |s|;
      assert init[..n] == s[..n];
      RemoveSpacesDropBack(init, n);
      assert s == init + [' '];
      RemoveSpacesAppend(init, [' ']);
    } else {
      assert TrimEnd(s) == s;
      assert n == |s|;
      assert s[..n] == s;
    }
  }

  /** The label of a key with no whitespace, with its spaces deleted, is the
      key again. */
  lemma {:induction false} MetricLabelRoundTrip(key: string)
    requires forall i :: 0 <= i < |key| ==> !IsTrimmable(key[i])
    ensures RemoveSpaces(MetricLabel(key)) == key
  {
    RemoveSpacesUndoesSpaceCapitals(key);
    SpaceCapitalsOnlyAddsSpaces(key);
    RemoveSpacesIgnoresTrim(SpaceCapitals(key));
  }

  /** Every character of the inserted-space string is a key character or a space. */
  lemma {:induction false} SpaceCapitalsOnlyAddsSpaces(key: string)
    requires forall i :: 0 <= i < |key| ==> !IsTrimmable(key[i])
    ensures forall i :: 0 <= i < |SpaceCapitals(key)| ==>
      (IsTrimmable(SpaceCapitals(key)[i]) ==> SpaceCapitals(key)[i] == ' ')
  {
    if key != [] {
      SpaceCapitalsOnlyAddsSpaces(key[1..]);
    }
  }

  /** For a key that starts with a non-capital and neither starts nor ends
      with whitespace, the label is the key with a space before each
      capital, one character longer per capital. */
  lemma {:induction false} MetricLabelOfCamelCase(key: string)
    requires key != []
    requires !IsUpper(key[0]) && !IsTrimmable(key[0]) && !IsTrimmable(key[|key| - 1])
    ensures MetricLabel(key) == SpaceCapitals(key)
    ensures |MetricLabel(key)| == |key| + CountUpper(key)
  {
    var spaced := SpaceCapitals(key);
    SpaceCapitalsFirst(key);
    SpaceCapitalsLast(key);
    TrimStartKeeps(spaced);
    TrimEndKeeps(spaced);
  }

  /** For a key that starts with a capital and does not end with whitespace,
      the label drops only the space inserted in front. */
  lemma {:induction false} MetricLabelOfPascalCase(key: string)
    requires key != []
    requires IsUpper(key[0]) && !IsTrimmable(key[|key| - 1])
    ensures MetricLabel(key) == SpaceCapitals(key)[1..]
  {
    var spaced := SpaceCapitals(key);
    SpaceCapitalsFirst(key);
    SpaceCapitalsLast(key);
    var tail := spaced[1..];
    assert TrimStart(spaced) == TrimStart(tail);
    TrimStartKeeps(tail);
    assert tail[|tail| - 1] == spaced[|spaced| - 1];
    TrimEndKeeps(tail);
  }

  /** The inserted-space string starts with a space and the capital, or with
      the key's first character. */
  lemma SpaceCapitalsFirst(key: string)
    requires key != []
    ensures IsUpper(key[0]) ==> |SpaceCapitals(key)| >= 2 && SpaceCapitals(key)[0] == ' ' && SpaceCapitals(key)[1] == key[0]
    ensures !IsUpper(key[0]) ==> SpaceCapitals(key)[0] == key[0]
  {
  }

  /** The inserted-space string ends with the key's last character. */
  lemma {:induction false} SpaceCapitalsLast(key: string)
    requires key != []
    ensures SpaceCapitals(key)[|SpaceCapitals(key)| - 1] == key[|key| - 1]
  {
    if |key| > 1 {
      SpaceCapitalsLast(key[1..]);
    }
  }

  /** Trimming the front removes a prefix, after which the string does not
      start with whitespace. */
  lemma {:induction false} TrimStartIsSuffix(s: string)
    ensures TrimStart(s) == s[|s| - |TrimStart(s)|..]
    ensures TrimStart(s) != [] ==> !IsTrimmable(TrimStart(s)[0])
    ensures forall i :: 0 <= i < |s| - |TrimStart(s)| ==> IsTrimmable(s[i])
    decreases |s|
  {
    if s != [] && IsTrimmable(s[0]) {
      TrimStartIsSuffix(s[1..]);
      assert s[1..][|s| - 1 - |TrimStart(s[1..])|..] == s[|s| - |TrimStart(s)|..];
      forall i | 1 <= i < |s| - |TrimStart(s)| ensures IsTrimmable(s[i]) {
        assert s[i] == s[1..][i - 1];
      }
    }
  }

  /** Trimming the end removes a suffix, after which the string does not end
      with whitespace. */
  lemma {:induction false} TrimEndIsPrefix(s: string)
    ensures TrimEnd(s) == s[..|TrimEnd(s)|]
    ensures TrimEnd(s) != [] ==> !IsTrimmable(TrimEnd(s)[|TrimEnd(s)| - 1])
    ensures forall i :: |TrimEnd(s)| <= i < |s| ==> IsTrimmable(s[i])
    decreases |s|
  {
    if s != [] && IsTrimmable(s[|s| - 1]) {
      TrimEndIsPrefix(s[..|s| - 1]);
      assert s[..|s| - 1][..|TrimEnd(s)|] == s[..|TrimEnd(s)|];
      forall i | |TrimEnd(s)| <= i < |s| - 1 ensures IsTrimmable(s[i]) {
        assert s[i] == s[..|s| - 1][i];
      }
    }
  }

  /** Trimming the front of a string that does not start with whitespace
      changes nothing. */
  lemma TrimStartKeeps(s: string)
    requires s != [] ==> !IsTrimmable(s[0])
    ensures TrimStart(s) == s
  {
  }

  /** Trimming the end of a string that does not end with whitespace changes
      nothing. */
  lemma TrimEndKeeps(s: string)
    requires s != [] ==> !IsTrimmable(s[|s| - 1])
    ensures TrimEnd(s) == s
  {
  }
}
