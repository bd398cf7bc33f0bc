/**
 * The OWASP Top 10:2021 reference table and the checklist it seeds for each new audit.
 */
module OwaspChecklist {
  import opened Wrappers
  import opened Sequences
  import opened SupabaseTypes

  /** `OwaspItem`: one entry of the reference table. */
  datatype OwaspItem = OwaspItem(code: string, category: string, title: string, description: string)

  /*
   * The table is written column by column: entry `i` (counting from 0) of the array literal is
   * `OwaspItem(EntryCode(i), EntryCategory(i), EntryTitle(i), EntryDescription(i))`, with the
   * source's texts verbatim.
   */

  /** The code of entry `i`; the literal codes are exactly the numbered codes A01 to A10. */
  function EntryCode(i: nat): (code: string)
    requires i < 10
    ensures code == CodeFor(i + 1)
  {
    if i == 0 then "A01"
    else if i == 1 then "A02"
    else if i == 2 then "A03"
    else if i == 3 then "A04"
    else if i == 4 then "A05"
    else if i == 5 then "A06"
    else if i == 6 then "A07"
    else if i == 7 then "A08"
    else if i == 8 then "A09"
    else "A10"
  }

  /** The category of entry `i`. */
  function EntryCategory(i: nat): string
    requires i < 10
  {
    if i == 0 then "Broken Access Control"
    else if i == 1 then "Cryptographic Failures"
    else if i == 2 then "Injection"
    else if i == 3 then "Insecure Design"
    else if i == 4 then "Security Misconfiguration"
    else if i == 5 then "Vulnerable Components"
    else if i == 6 then "Authentication Failures"
    else if i == 7 then "Data Integrity Failures"
    else if i == 8 then "Logging Failures"
    else "SSRF"
  }

  /** The title of entry `i`. */
  function EntryTitle(i: nat): string
    requires i < 10
  {
    if i == 0 then "Broken Access Control"
    else if i == 1 then "Cryptographic Failures"
    else if i == 2 then "Injection"
    else if i == 3 then "Insecure Design"
    else if i == 4 then "Security Misconfiguration"
    else if i == 5 then "Vulnerable and Outdated Components"
    else if i == 6 then "Identification and Authentication Failures"
    else if i == 7 then "Software and Data Integrity Failures"
    else if i == 8 then "Security Logging and Monitoring Failures"
    else "Server-Side Request Forgery (SSRF)"
  }

  /** The description of entry `i`. */
  function EntryDescription(i: nat): string
    requires i < 10
  {
    if i == 0 then
      "Restrictions on authenticated users are not properly enforced. Attackers can exploit these flaws to access unauthorized functionality and/or data."
    else if i == 1 then
      "Failures related to cryptography which often lead to exposure of sensitive data. This includes weak encryption, improper key management, and transmission of data in clear text."
    else if i == 2 then
      "Injection flaws such as SQL, NoSQL, OS, and LDAP injection occur when untrusted data is sent to an interpreter as part of a command or query."
    else if i == 3 then
      "Missing or ineffective control design. This includes threat modeling, secure design patterns, and reference architectures."
    else if i == 4 then
      "Missing appropriate security hardening or improperly configured permissions on cloud services. Includes default configurations and incomplete configurations."
    else if i == 5 then
      "Using components with known vulnerabilities. This includes libraries, frameworks, and other software modules running with the same privileges as the application."
    else if i == 6 then
      "Weak authentication mechanisms, session management flaws, and credential stuffing. Includes improper validation of sessions and credentials."
    else if i == 7 then
      "Code and infrastructure that does not protect against integrity violations. Includes insecure deserialization and using software without integrity verification."
    else if i == 8 then
      "Insufficient logging, detection, monitoring, and active response. Without proper logging and monitoring, attacks may go unnoticed."
    else
      "SSRF flaws occur when a web application fetches a remote resource without validating the user-supplied URL. Attackers can coerce the application to send requests to unexpected destinations."
  }

  /** `OWASP_TOP_10_2021`: the ten entries, in the order of the array literal. */
  function OwaspTop10_2021(): seq<OwaspItem> {
    seq(10, i requires 0 <= i < 10 => OwaspItem(EntryCode(i), EntryCategory(i), EntryTitle(i), EntryDescription(i)))
  }

  function Digit(d: nat): (c: char)
    requires d < 10
    ensures '0' <= c <= '9'
    ensures c as int - '0' as int == d
  {
    ('0' as int + d) as char
  }

  /** The code of the n-th risk of the list: "A" and two decimal digits. */
  function CodeFor(n: nat): (code: string)
    requires 1 <= n <= 99
    ensures |code| == 3 && code[0] == 'A'
    ensures (code[1] as int - '0' as int) * 10 + (code[2] as int - '0' as int) == n
  {
    ['A', Digit(n / 10), Digit(n % 10)]
  }

  /** Two different numbers never share a code. */
  lemma CodeForInjective(m: nat, n: nat)
    requires 1 <= m <= 99 && 1 <= n <= 99
    ensures CodeFor(m) == CodeFor(n) <==> m == n
  {
    if CodeFor(m) == CodeFor(n) {
      assert CodeFor(m)[1] == CodeFor(n)[1] && CodeFor(m)[2] == CodeFor(n)[2];
    }
  }

  /** Code-unit order on strings, as JavaScript's `<` and an ascending text `.order(...)` compare. */
  predicate LexLess(a: string, b: string)
    decreases |a|
  {
    |b| > 0 && (|a| == 0 || a[0] < b[0] || (a[0] == b[0] && LexLess(a[1..], b[1..])))
  }

  /** On zero-padded codes, string order is numeric order. */
  lemma CodeForOrdered(m: nat, n: nat)
    requires 1 <= m < n <= 99
    ensures LexLess(CodeFor(m), CodeFor(n))
  {
    var a, b := CodeFor(m), CodeFor(n);
    assert a[1..][1..] == [a[2]] && b[1..][1..] == [b[2]];
    if m / 10 == n / 10 {
      assert a[2] < b[2];
      assert LexLess(a[1..][1..], b[1..][1..]);
      assert LexLess(a[1..], b[1..]);
    } else {
      assert a[1] < b[1];
      assert LexLess(a[1..], b[1..]);
    }
  }

  predicate CodesAre(table: seq<OwaspItem>) {
    forall i :: 0 <= i < |table| ==> 1 <= i + 1 <= 99 && table[i].code == CodeFor(i + 1)
  }

  /** The table has ten entries whose codes are A01 to A10, in that order. */
  lemma TableCodes()
    ensures |OwaspTop10_2021()| == 10
    ensures CodesAre(OwaspTop10_2021())
  {
  }

  function Codes(table: seq<OwaspItem>): (codes: seq<string>)
    ensures |codes| == |table|
    ensures forall i :: 0 <= i < |table| ==> codes[i] == table[i].code
  {
    seq(|table|, i requires 0 <= i < |table| => table[i].code)
  }

  /** Numbered codes strictly ascend, and therefore no code occurs twice. */
  lemma CodesAscending(table: seq<OwaspItem>)
    requires CodesAre(table)
    ensures forall i, j :: 0 <= i < j < |table| ==> LexLess(table[i].code, table[j].code)
    ensures Distinct(Codes(table))
  {
    forall i, j | 0 <= i < j < |table| ensures LexLess(table[i].code, table[j].code) {
      assert table[i].code == CodeFor(i + 1) && table[j].code == CodeFor(j + 1);
      CodeForOrdered(i + 1, j + 1);
    }
    forall i, j | 0 <= i < j < |table| ensures Codes(table)[i] != Codes(table)[j] {
      assert table[i].code == CodeFor(i + 1) && table[j].code == CodeFor(j + 1);
      CodeForInjective(i + 1, j + 1);
    }
  }

  /** `table.map(...)`: one unchecked, note-less item per table entry, in table order. */
  function Seed(auditId: string, table: seq<OwaspItem>): (items: seq<ChecklistItemInsert>)
    ensures |items| == |table|
    ensures forall i :: 0 <= i < |items| ==>
      && items[i].audit_id == auditId
      && items[i].owasp_code == table[i].code
      && items[i].owasp_category == table[i].category
      && items[i].title == table[i].title
      && items[i].description == Given(Some(table[i].description))
      && items[i].checked == Given(false)
      && items[i].notes == Given(None)
  {
    seq(|table|, i requires 0 <= i < |table| =>
      var item := table[i];
      ChecklistItemInsert(auditId, item.category, item.code, item.title,
                          Given(false), Given(None), Given(Some(item.description))))
  }

  /** `createChecklistItemsForAudit`. */
  function CreateChecklistItemsForAudit(auditId: string): seq<ChecklistItemInsert> {
    Seed(auditId, OwaspTop10_2021())
  }

  /**
   * A seeded checklist has the ten codes A01 to A10 in order, each once, all for the given audit;
   * once stored, every row is unchecked and has no notes.
   */
  lemma SeededChecklist(auditId: string, ids: seq<string>, now: string)
    requires |ids| == 10
    ensures var items := CreateChecklistItemsForAudit(auditId);
      && |items| == 10
      && (forall i :: 0 <= i < 10 ==> items[i].owasp_code == CodeFor(i + 1))
      && (forall i, j :: 0 <= i < j < 10 ==> LexLess(items[i].owasp_code, items[j].owasp_code))
      && (forall i :: 0 <= i < 10 ==>
            var row := InsertedChecklistItem(items[i], ids[i], now);
            row.audit_id == auditId && !row.checked && row.notes.None?)
  {
    TableCodes();
    CodesAscending(OwaspTop10_2021());
  }
}
