/** The threat intelligence panel (src/components/ThreatIntelPanel.tsx): the lookup of the
    selected attack in the CVE table, the CVSS severity band of its score and the colour
    classes of that band. Scores are CVSS base scores in tenths (7.5 is 75). */
module ThreatIntel {
  import opened Wrappers
  import opened Text

  datatype Severity = Low | Medium | High | Critical

  /** The badge text of a band. */
  function Label(s: Severity): string
  {
    match s
    case Critical => "CRITICAL"
    case High => "HIGH"
    case Medium => "MEDIUM"
    case Low => "LOW"
  }

  /** The order of the bands, from least to most severe. */
  function Rank(s: Severity): nat
  {
    match s
    case Low => 0
    case Medium => 1
    case High => 2
    case Critical => 3
  }

  /** `getCVSSSeverity`: the first threshold (9.0, 7.0, 4.0) the score reaches decides the
      band; a score below 4.0, 0.0 included, is LOW. */
  function CvssSeverity(score: nat): (s: Severity)
    ensures s == Critical <==> score >= 90
    ensures s == High <==> 70 <= score < 90
    ensures s == Medium <==> 40 <= score < 70
    ensures s == Low <==> score < 40
  {
    if score >= 90 then Critical
    else if score >= 70 then High
    else if score >= 40 then Medium
    else Low
  }

  /** `getCVSSColor`: the text and border classes of the score, by the same thresholds. */
  function CvssColor(score: nat): string
  {
    if score >= 90 then "text-red-500 border-red-500"
    else if score >= 70 then "text-orange-500 border-orange-500"
    else if score >= 40 then "text-yellow-500 border-yellow-500"
    else "text-green-500 border-green-500"
  }

  /** The text colour class of a band. */
  function TextClass(s: Severity): (c: string)
    ensures ' ' !in c
  {
    match s
    case Critical => "text-red-500"
    case High => "text-orange-500"
    case Medium => "text-yellow-500"
    case Low => "text-green-500"
  }

  /** The border colour class of a band. */
  function BorderClass(s: Severity): string
  {
    match s
    case Critical => "border-red-500"
    case High => "border-orange-500"
    case Medium => "border-yellow-500"
    case Low => "border-green-500"
  }

  /** The band of the ratings table of section 5 of the CVSS v3.1 Specification Document:
      None for 0.0, Low 0.1-3.9, Medium 4.0-6.9, High 7.0-8.9, Critical 9.0-10.0. */
  function StandardRating(score: nat): Option<Severity>
    requires score <= 100
  {
    if score == 0 then None
    else if 1 <= score <= 39 then Some(Low)
    else if 40 <= score <= 69 then Some(Medium)
    else if 70 <= score <= 89 then Some(High)
    else Some(Critical)
  }

  /** On every score the scale rates, the panel's band is the standard's. */
  lemma SeverityFollowsStandard(score: nat)
    requires 0 < score <= 100
    ensures StandardRating(score) == Some(CvssSeverity(score))
  {
  }

  /** The panel has no None band: a score of 0.0, which the standard rates None, is LOW. */
  lemma ZeroIsLow()
    ensures CvssSeverity(0) == Low && Label(CvssSeverity(0)) == "LOW"
    ensures StandardRating(0) == None
  {
  }

  /** A higher score never gets a lower band. */
  lemma SeverityMonotone(a: nat, b: nat)
    requires a <= b
    ensures Rank(CvssSeverity(a)) <= Rank(CvssSeverity(b))
  {
  }

  /** The lowest score of a band. */
  function Threshold(s: Severity): (t: nat)
    ensures CvssSeverity(t) == s
  {
    match s
    case Low => 0
    case Medium => 40
    case High => 70
    case Critical => 90
  }

  /** The colour of a score depends on its band alone. */
  lemma ColorByBand(a: nat, b: nat)
    requires CvssSeverity(a) == CvssSeverity(b)
    ensures CvssColor(a) == CvssColor(b)
  {
  }

  /** The colour string of each band is its text class and its border class. */
  lemma BandClasses(s: Severity)
    ensures CvssColor(Threshold(s)) == TextClass(s) + " " + BorderClass(s)
  {
    match s
    case Critical => CriticalClasses();
    case High => HighClasses();
    case Medium => MediumClasses();
    case Low => LowClasses();
  }

  lemma CriticalClasses()
    ensures CvssColor(90) == TextClass(Critical) + " " + BorderClass(Critical)
  {
  }

  lemma HighClasses()
    ensures CvssColor(70) == TextClass(High) + " " + BorderClass(High)
  {
  }

  lemma MediumClasses()
    ensures CvssColor(40) == TextClass(Medium) + " " + BorderClass(Medium)
  {
  }

  lemma LowClasses()
    ensures CvssColor(0) == TextClass(Low) + " " + BorderClass(Low)
  {
  }

  /** Colour and band agree: red for CRITICAL, orange for HIGH, yellow for MEDIUM and green
      for LOW, once as text class and once as border class. */
  lemma ColorMatchesSeverity(score: nat)
    ensures CvssColor(score) == TextClass(CvssSeverity(score)) + " " + BorderClass(CvssSeverity(score))
  {
    var s := CvssSeverity(score);
    ColorByBand(score, Threshold(s));
    BandClasses(s);
  }

  /** The score itself is drawn with the first class of the colour string, the text colour
      of its band. */
  lemma ScoreClass(score: nat)
    ensures FirstToken(CvssColor(score)) == TextClass(CvssSeverity(score))
  {
    var s := CvssSeverity(score);
    ColorMatchesSeverity(score);
    FirstTokenOfPair(TextClass(s), BorderClass(s));
  }

  /** The part of one table entry the panel derives something from. */
  datatype AttackInfo = AttackInfo(name: string, cve: string, cvss: nat)

  /** The CVE table, keyed by the attack type the attack panel reports. */
  const AttackDatabase: map<string, AttackInfo> := map[
    "DDoS Attack" := AttackInfo("DDoS Attack", "CVE-2024-1337", 75),
    "SQL Injection" := AttackInfo("SQL Injection", "CVE-2024-2156", 98),
    "XSS Attack" := AttackInfo("Cross-Site Scripting", "CVE-2024-3421", 61),
    "Phishing" := AttackInfo("Phishing Attack", "CVE-2024-4892", 53),
    "Ransomware" := AttackInfo("Ransomware", "CVE-2024-5673", 89),
    "Man-in-the-Middle" := AttackInfo("MITM Attack", "CVE-2024-6234", 74),
    "Zero-Day Exploit" := AttackInfo("Zero-Day Exploit", "CVE-2024-7891", 91),
    "Brute Force" := AttackInfo("Brute Force Attack", "CVE-2024-8012", 65),
    "DNS Poisoning" := AttackInfo("DNS Cache Poisoning", "CVE-2024-9347", 72),
    "Credential Stuffing" := AttackInfo("Credential Stuffing", "CVE-2024-1045", 83)
  ]

  /** `selectedAttack ? attackDatabase[selectedAttack] : undefined`: nothing is selected, the
      empty name (falsy) or a name the table lacks give no entry, and the placeholder shows. */
  function AttackInfoFor(selected: Option<string>): (r: Option<AttackInfo>)
    ensures r.Some? <==> selected.Some? && selected.value != "" && selected.value in AttackDatabase
    ensures r.Some? ==> r.value == AttackDatabase[selected.value]
  {
    if selected.None? || selected.value == "" then None
    else if selected.value in AttackDatabase then Some(AttackDatabase[selected.value])
    else None
  }

  /** The attack names the attack panel offers, in its order. */
  const PanelAttacks: seq<string> := [
    "DDoS Attack", "SQL Injection", "XSS Attack", "Phishing", "Brute Force",
    "Malware", "Ransomware", "Zero-Day Exploit", "Man-in-the-Middle", "Privilege Escalation"
  ]

  /** Of the attacks offered, exactly "Malware" and "Privilege Escalation" have no table
      entry, so after launching one of them the panel shows its placeholder. */
  lemma UnlistedPanelAttacks()
    ensures forall a :: a in PanelAttacks ==>
              (AttackInfoFor(Some(a)).None? <==> a == "Malware" || a == "Privilege Escalation")
  {
    forall a | a in PanelAttacks
      ensures AttackInfoFor(Some(a)).None? <==> a == "Malware" || a == "Privilege Escalation"
    {
      var i :| 0 <= i < |PanelAttacks| && PanelAttacks[i] == a;
      assert i < 10;
      if i == 5 {
        assert "Malware" !in AttackDatabase by { assert "Malware"[0] == 'M'; }
      }
    }
  }

  /** Every score in the table lies on the 0.0-10.0 scale and is rated by it, and the two
      table entries rated CRITICAL are SQL Injection and the zero-day exploit. */
  lemma TableScores()
    ensures forall k :: k in AttackDatabase ==> 0 < AttackDatabase[k].cvss <= 100
    ensures forall k :: k in AttackDatabase ==>
              (CvssSeverity(AttackDatabase[k].cvss) == Critical <==> k == "SQL Injection" || k == "Zero-Day Exploit")
  {
  }
}
