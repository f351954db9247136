/**
 * Subdomains from Certificate Transparency (hostnames.ts): the names of all certificates folded
 * into one entry each, sorted and cut. The order of names is a parameter: any strict total order.
 */
module Hostnames {
  import opened Base

  /** `notBefore` is the parsed date; an absent or invalid one is None. */
  datatype CtName = CtName(name: string, notBefore: Option<int>)

  datatype CandidateHost = CandidateHost(hostname: string, wildcard: bool, lastCertificateAt: Option<int>)

  /** One occurrence of a candidate name. */
  datatype Sighting = Sighting(name: string, wildcard: bool, at: Option<int>)

  // ---------------------------------------------------------------- one name

  /** split(/\s+/): the parts between white space; the empty ones are skipped later. */
  function Words(s: string, current: string): (r: seq<string>)
    ensures r != []
  {
    if s == "" then [current]
    else if IsSpace(s[0]) then [current] + Words(s[1..], "")
    else Words(s[1..], current + [s[0]])
  }

  function WithoutDot(s: string): string {
    if s != "" && s[|s| - 1] == '.' then s[..|s| - 1] else s
  }

  predicate StartsWith(s: string, prefix: string) {
    |prefix| <= |s| && s[..|prefix|] == prefix
  }

  predicate EndsWith(s: string, suffix: string) {
    |suffix| <= |s| && s[|s| - |suffix|..] == suffix
  }

  predicate IsLetter(ch: char) {
    'a' <= ch <= 'z'
  }

  predicate IsLabelChar(ch: char) {
    IsLetter(ch) || '0' <= ch <= '9' || ch == '_'
  }

  predicate IsLabel(s: string) {
    && 1 <= |s| <= 63 && IsLabelChar(s[0]) && IsLabelChar(s[|s| - 1])
    && forall i :: 0 <= i < |s| ==> IsLabelChar(s[i]) || s[i] == '-'
  }

  predicate IsTopLevel(s: string) {
    2 <= |s| <= 63 && forall i :: 0 <= i < |s| ==> IsLetter(s[i])
  }

  function Labels(s: string, current: string): (r: seq<string>)
    ensures r != []
  {
    if s == "" then [current]
    else if s[0] == '.' then [current] + Labels(s[1..], "")
    else Labels(s[1..], current + [s[0]])
  }

  /** The HOSTNAME pattern: labels of up to 63 characters, a top-level label of letters, 253 in all. */
  predicate IsHostname(s: string) {
    var labels := Labels(s, "");
    && 1 <= |s| <= 253 && |labels| >= 2 && IsTopLevel(labels[|labels| - 1])
    && forall i :: 0 <= i < |labels| - 1 ==> IsLabel(labels[i])
  }

  /** A name that counts: a valid host name strictly below the domain. */
  predicate IsCandidate(name: string, domain: string) {
    name != domain && EndsWith(name, "." + domain) && IsHostname(name)
  }

  /** What one part of an entry contributes. */
  function Sight(raw: string, domain: string, at: Option<int>): Option<Sighting> {
    var full := WithoutDot(Lowered(raw));
    if full == "" || '@' in full then None
    else
      var wildcard := StartsWith(full, "*.");
      var name := if wildcard then full[2..] else full;
      if IsCandidate(name, domain) then Some(Sighting(name, wildcard, at)) else None
  }

  /** The parts put together again, with `sep` between them. */
  function Joined(parts: seq<string>, sep: string): string {
    if parts == [] then "" else if |parts| == 1 then parts[0] else parts[0] + sep + Joined(parts[1..], sep)
  }

  /** The labels of a name hold no dot, and joined by dots they are the name. */
  lemma {:induction false} LabelsOf(s: string, current: string)
    requires '.' !in current
    ensures var labels := Labels(s, current);
      Joined(labels, ".") == current + s && forall i :: 0 <= i < |labels| ==> '.' !in labels[i]
    decreases |s|
  {
    if s == "" {
    } else if s[0] == '.' {
      LabelsOf(s[1..], "");
      var rest := Labels(s[1..], "");
      assert ([current] + rest)[1..] == rest;
      assert s == "." + s[1..];
      assert current + "." + ("" + s[1..]) == current + s;
    } else {
      LabelsOf(s[1..], current + [s[0]]);
      assert current + [s[0]] + s[1..] == current + s;
    }
  }

  predicate NoDot(s: string) {
    forall i :: 0 <= i < |s| ==> s[i] != '.'
  }

  lemma {:induction false} FirstLabel(part: string, rest: string, current: string)
    requires NoDot(part)
    ensures Labels(part, current) == [current + part]
    ensures Labels(part + "." + rest, current) == [current + part] + Labels(rest, "")
    decreases |part|
  {
    var all := part + "." + rest;
    if part == "" {
      assert all[0] == '.' && all[1..] == rest && current + part == current;
    } else {
      assert all[0] == part[0] && all[1..] == part[1..] + "." + rest;
      assert current + [part[0]] + part[1..] == current + part;
      FirstLabel(part[1..], rest, current + [part[0]]);
    }
  }

  lemma {:induction false} JoinedLabels(labels: seq<string>)
    requires labels != [] && forall i :: 0 <= i < |labels| ==> NoDot(labels[i])
    ensures Labels(Joined(labels, "."), "") == labels
    decreases |labels|
  {
    assert "" + labels[0] == labels[0];
    if |labels| == 1 {
      FirstLabel(labels[0], "", "");
    } else {
      JoinedLabels(labels[1..]);
      FirstLabel(labels[0], Joined(labels[1..], "."), "");
    }
  }

  /**
   * A host name: at least two labels joined by dots, at most 253 characters in all, the last label of
   * 2 to 63 letters, and each other one of 1 to 63 letters, digits, underscores and inner hyphens.
   */
  lemma HostnameOf(labels: seq<string>)
    requires |labels| >= 2 && forall i :: 0 <= i < |labels| ==> NoDot(labels[i])
    ensures IsHostname(Joined(labels, ".")) <==>
      && 1 <= |Joined(labels, ".")| <= 253 && IsLastLabel(labels[|labels| - 1])
      && forall i :: 0 <= i < |labels| - 1 ==> IsInnerLabel(labels[i])
  {
    JoinedLabels(labels);
  }

  predicate IsLastLabel(s: string) {
    2 <= |s| <= 63 && forall j :: 0 <= j < |s| ==> 'a' <= s[j] <= 'z'
  }

  predicate IsInnerLabel(s: string) {
    && 1 <= |s| <= 63 && s[0] != '-' && s[|s| - 1] != '-'
    && forall j :: 0 <= j < |s| ==> 'a' <= s[j] <= 'z' || '0' <= s[j] <= '9' || s[j] == '_' || s[j] == '-'
  }

  predicate NoSpace(s: string) {
    forall i :: 0 <= i < |s| ==> !IsSpace(s[i])
  }

  /** The parts of an entry hold no white space, and each piece between white space is one of them. */
  lemma {:induction false} WordsOf(a: string, ch: char, b: string, current: string)
    requires NoSpace(a) && IsSpace(ch) && NoSpace(current)
    ensures Words(a, current) == [current + a]
    ensures Words(a + [ch] + b, current) == [current + a] + Words(b, "")
    decreases |a|
  {
    var all := a + [ch] + b;
    if a == "" {
      assert all[0] == ch && all[1..] == b;
      assert current + a == current;
    } else {
      assert all[0] == a[0] && all[1..] == a[1..] + [ch] + b;
      assert current + [a[0]] + a[1..] == current + a;
      WordsOf(a[1..], ch, b, current + [a[0]]);
    }
  }

  lemma LoweredParts(a: string, b: string)
    ensures Lowered(a + b) == Lowered(a) + Lowered(b)
  {
  }

  lemma SightOfStarred(raw: string, name: string, domain: string, at: Option<int>)
    requires Lowered(raw) == name && IsCandidate(name, domain) && '@' !in name && name[|name| - 1] != '.'
    ensures Sight("*." + raw, domain, at) == Some(Sighting(name, true, at))
  {
    LoweredParts("*.", raw);
    assert Lowered("*.") == "*.";
    var starred := "*." + name;
    assert starred[|starred| - 1] == name[|name| - 1];
    assert starred[2..] == name && starred[..2] == "*.";
  }

  /**
   * A candidate name contributes itself; with a leading asterisk label it is a wildcard of the name
   * behind it, a final dot is dropped, and upper case makes no difference.
   */
  lemma SightOfCandidate(raw: string, name: string, domain: string, at: Option<int>)
    requires Lowered(raw) == name && IsCandidate(name, domain) && '@' !in name
    requires !StartsWith(name, "*.") && name[|name| - 1] != '.'
    ensures Sight(raw, domain, at) == Some(Sighting(name, false, at))
    ensures Sight(raw + ".", domain, at) == Some(Sighting(name, false, at))
    ensures Sight("*." + raw, domain, at) == Some(Sighting(name, true, at))
  {
    LoweredParts(raw, ".");
    assert Lowered(".") == "." && (name + ".")[..|name|] == name;
    SightOfStarred(raw, name, domain, at);
  }

  /** What else a part may be, nothing comes of it: an address, an empty part, or a name that is no candidate. */
  lemma SightOfOthers(raw: string, domain: string, at: Option<int>)
    ensures Sight(raw, domain, at).Some? ==>
      var s := Sight(raw, domain, at).value;
      s.at == at && IsCandidate(s.name, domain) && '@' !in WithoutDot(Lowered(raw))
        && WithoutDot(Lowered(raw)) == (if s.wildcard then "*." + s.name else s.name)
  {
    var full := WithoutDot(Lowered(raw));
    if StartsWith(full, "*.") { assert full == full[..2] + full[2..]; }
  }

  // ---------------------------------------------------------------- the answer as a set of sightings

  /** What some parts of an entry contribute. */
  function SightingsIn(words: seq<string>, domain: string, at: Option<int>): set<Sighting> {
    set w | w in words && Sight(w, domain, at).Some? :: Sight(w, domain, at).value
  }

  function SightingsOf(entry: CtName, domain: string): set<Sighting> {
    SightingsIn(Words(entry.name, ""), domain, entry.notBefore)
  }

  function Sightings(names: seq<CtName>, domain: string): set<Sighting> {
    set i, s | 0 <= i < |names| && s in SightingsOf(names[i], domain) :: s
  }

  /** The latest of the dates seen for a name, None if there is none. */
  ghost predicate IsLatest(seen: set<Sighting>, name: string, at: Option<int>) {
    && (at.Some? ==> exists s :: s in seen && s.name == name && s.at == at)
    && (forall s :: s in seen && s.name == name && s.at.Some? ==> at.Some? && s.at.value <= at.value)
  }

  /** What is to be known about one name: some sighting was a wildcard, and the latest certificate. */
  ghost predicate Summarizes(seen: set<Sighting>, host: CandidateHost) {
    && (exists s :: s in seen && s.name == host.hostname)
    && (host.wildcard <==> exists s :: s in seen && s.name == host.hostname && s.wildcard)
    && IsLatest(seen, host.hostname, host.lastCertificateAt)
  }

  ghost predicate StrictOrder<T(!new)>(before: (T, T) -> bool) {
    && (forall a, b :: before(a, b) || before(b, a) || a == b)
    && (forall a, b :: before(a, b) ==> !before(b, a))
    && (forall a, b, c :: before(a, b) && before(b, c) ==> before(a, c))
  }

  ghost predicate Ascending<T>(names: seq<T>, before: (T, T) -> bool) {
    forall i, j :: 0 <= i < j < |names| ==> before(names[i], names[j])
  }

  function NamesOf(hosts: seq<CandidateHost>): (r: seq<string>)
    ensures |r| == |hosts|
  {
    seq(|hosts|, i requires 0 <= i < |hosts| => hosts[i].hostname)
  }

  /** The complete list: every name seen, once, in order, each with its summary. */
  ghost predicate IsCompleteList(seen: set<Sighting>, before: (string, string) -> bool, hosts: seq<CandidateHost>) {
    && Ascending(NamesOf(hosts), before)
    && (forall i :: 0 <= i < |hosts| ==> Summarizes(seen, hosts[i]))
    && (forall s :: s in seen ==> s.name in NamesOf(hosts))
  }

  datatype Answer = Answer(hosts: seq<CandidateHost>, truncated: bool)

  ghost predicate IsAnswer(seen: set<Sighting>, before: (string, string) -> bool, max: nat, r: Answer) {
    exists all :: IsCompleteList(seen, before, all) && r == Answer(if |all| > max then all[..max] else all, |all| > max)
  }

  // ---------------------------------------------------------------- the answer is unique

  /** One order that will do: character by character. */
  predicate Alphabetical(a: string, b: string) {
    b != "" && (a == "" || a[0] < b[0] || (a[0] == b[0] && Alphabetical(a[1..], b[1..])))
  }

  lemma {:induction false} AlphabeticalTotal(a: string, b: string)
    ensures Alphabetical(a, b) || Alphabetical(b, a) || a == b
    ensures Alphabetical(a, b) ==> !Alphabetical(b, a)
  {
    if a != "" && b != "" {
      AlphabeticalTotal(a[1..], b[1..]);
      assert a == [a[0]] + a[1..] && b == [b[0]] + b[1..];
    }
  }

  lemma {:induction false} AlphabeticalTransitive(a: string, b: string, c: string)
    requires Alphabetical(a, b) && Alphabetical(b, c)
    ensures Alphabetical(a, c)
  {
    if a != "" && a[0] == b[0] && b[0] == c[0] {
      AlphabeticalTransitive(a[1..], b[1..], c[1..]);
    }
  }

  lemma AlphabeticalIsStrict()
    ensures StrictOrder(Alphabetical)
  {
    forall a, b ensures (Alphabetical(a, b) || Alphabetical(b, a) || a == b)
        && (Alphabetical(a, b) ==> !Alphabetical(b, a)) {
      AlphabeticalTotal(a, b);
    }
    forall a, b, c | Alphabetical(a, b) && Alphabetical(b, c) ensures Alphabetical(a, c) {
      AlphabeticalTransitive(a, b, c);
    }
  }

  lemma SameSummary(seen: set<Sighting>, a: CandidateHost, b: CandidateHost)
    requires Summarizes(seen, a) && Summarizes(seen, b) && a.hostname == b.hostname
    ensures a == b
  {
  }

  lemma FirstComesFirst<T(!new)>(a: seq<T>, before: (T, T) -> bool, x: T)
    requires Ascending(a, before) && x in a
    ensures x == a[0] || before(a[0], x)
  {
    var i :| 0 <= i < |a| && a[i] == x;
    if i > 0 { assert before(a[0], a[i]); }
  }

  lemma FirstsAgree<T(!new)>(a: seq<T>, b: seq<T>, before: (T, T) -> bool)
    requires StrictOrder(before) && Ascending(a, before) && Ascending(b, before)
    requires a != [] && b != [] && a[0] in b && b[0] in a
    ensures a[0] == b[0]
  {
    FirstComesFirst(b, before, a[0]);
    FirstComesFirst(a, before, b[0]);
  }

  lemma RestOf<T(!new)>(a: seq<T>, before: (T, T) -> bool, x: T)
    requires StrictOrder(before) && Ascending(a, before) && a != []
    ensures Ascending(a[1..], before) && (x in a[1..] <==> x in a && x != a[0])
  {
    if x in a[1..] {
      var i :| 0 <= i < |a[1..]| && a[1..][i] == x;
      assert before(a[0], a[i + 1]);
    }
  }

  lemma EmptyTogether<T>(a: seq<T>, b: seq<T>)
    requires forall x :: x in a <==> x in b
    ensures a == [] <==> b == []
  {
    if a != [] { assert a[0] in b; }
    if b != [] { assert b[0] in a; }
  }

  /** An ascending list is determined by its elements. */
  lemma {:induction false} AscendingUnique<T(!new)>(a: seq<T>, b: seq<T>, before: (T, T) -> bool)
    requires StrictOrder(before) && Ascending(a, before) && Ascending(b, before)
    requires forall x :: x in a <==> x in b
    ensures a == b
  {
    EmptyTogether(a, b);
    if a != [] {
      assert a[0] in b && b[0] in a;
      FirstsAgree(a, b, before);
      forall x ensures x in a[1..] <==> x in b[1..] {
        RestOf(a, before, x);
        RestOf(b, before, x);
      }
      AscendingUnique(a[1..], b[1..], before);
    }
  }

  lemma NamesAreSeen(seen: set<Sighting>, before: (string, string) -> bool, hosts: seq<CandidateHost>, name: string)
    requires IsCompleteList(seen, before, hosts)
    ensures name in NamesOf(hosts) <==> exists s :: s in seen && s.name == name
  {
    if name in NamesOf(hosts) {
      var i :| 0 <= i < |hosts| && NamesOf(hosts)[i] == name;
      assert Summarizes(seen, hosts[i]);
    }
  }

  lemma CompleteListUnique(seen: set<Sighting>, before: (string, string) -> bool, a: seq<CandidateHost>,
      b: seq<CandidateHost>)
    requires StrictOrder(before) && IsCompleteList(seen, before, a) && IsCompleteList(seen, before, b)
    ensures a == b
  {
    forall name ensures name in NamesOf(a) <==> name in NamesOf(b) {
      NamesAreSeen(seen, before, a, name);
      NamesAreSeen(seen, before, b, name);
    }
    AscendingUnique(NamesOf(a), NamesOf(b), before);
    forall i | 0 <= i < |a| ensures a[i] == b[i] {
      assert NamesOf(a)[i] == NamesOf(b)[i];
      SameSummary(seen, a[i], b[i]);
    }
  }

  lemma SightingsIgnoreOrder(a: seq<CtName>, b: seq<CtName>, domain: string)
    requires forall e :: e in a <==> e in b
    ensures Sightings(a, domain) == Sightings(b, domain)
  {
    forall s | s in Sightings(a, domain) ensures s in Sightings(b, domain) { SeenInBoth(a, b, domain, s); }
    forall s | s in Sightings(b, domain) ensures s in Sightings(a, domain) { SeenInBoth(b, a, domain, s); }
  }

  lemma SeenInBoth(a: seq<CtName>, b: seq<CtName>, domain: string, s: Sighting)
    requires (forall e :: e in a ==> e in b) && s in Sightings(a, domain)
    ensures s in Sightings(b, domain)
  {
    var i :| 0 <= i < |a| && s in SightingsOf(a[i], domain);
    assert a[i] in b;
    var j :| 0 <= j < |b| && b[j] == a[i];
  }

  /**
   * The order of the certificates, and how often each is listed, make no difference: there is one
   * answer for all lists with the same entries.
   */
  lemma OrderOfCertificatesIrrelevant(a: seq<CtName>, b: seq<CtName>, domain: string,
      before: (string, string) -> bool, max: nat, ra: Answer, rb: Answer)
    requires StrictOrder(before) && forall e :: e in a <==> e in b
    requires IsAnswer(Sightings(a, domain), before, max, ra) && IsAnswer(Sightings(b, domain), before, max, rb)
    ensures ra == rb
  {
    SightingsIgnoreOrder(a, b, domain);
    var seen := Sightings(a, domain);
    var la: seq<CandidateHost> :| IsCompleteList(seen, before, la)
        && ra == Answer(if |la| > max then la[..max] else la, |la| > max);
    var lb: seq<CandidateHost> :| IsCompleteList(seen, before, lb)
        && rb == Answer(if |lb| > max then lb[..max] else lb, |lb| > max);
    CompleteListUnique(seen, before, la, lb);
  }

  lemma SightedIsCandidate(names: seq<CtName>, domain: string, s: Sighting)
    requires s in Sightings(names, domain)
    ensures IsCandidate(s.name, domain)
  {
  }

  lemma ListedIsCandidate(names: seq<CtName>, domain: string, host: CandidateHost)
    requires Summarizes(Sightings(names, domain), host)
    ensures IsCandidate(host.hostname, domain)
  {
    var s :| s in Sightings(names, domain) && s.name == host.hostname;
    SightedIsCandidate(names, domain, s);
  }

  lemma AscendingIsDistinct(seen: set<Sighting>, before: (string, string) -> bool, hosts: seq<CandidateHost>,
      i: nat, j: nat)
    requires StrictOrder(before) && IsCompleteList(seen, before, hosts) && i < j < |hosts|
    ensures hosts[i].hostname != hosts[j].hostname
  {
    assert before(NamesOf(hosts)[i], NamesOf(hosts)[j]);
  }

  /** A cut list leaves a name out that was seen. */
  lemma CutLeavesANameOut(seen: set<Sighting>, before: (string, string) -> bool, max: nat, all: seq<CandidateHost>)
    requires StrictOrder(before) && IsCompleteList(seen, before, all) && |all| > max
    ensures exists s :: s in seen && s.name !in NamesOf(all[..max])
  {
    assert Summarizes(seen, all[max]);
    var s :| s in seen && s.name == all[max].hostname;
    if s.name in NamesOf(all[..max]) {
      var i :| 0 <= i < max && NamesOf(all[..max])[i] == s.name;
      AscendingIsDistinct(seen, before, all, i, max);
    }
  }

  /**
   * Every host of an answer is a valid strict subdomain and no name comes twice; the list is cut, to
   * exactly `max` names, if and only if some name that was seen is not in it.
   */
  lemma HostsAreSubdomains(names: seq<CtName>, domain: string, before: (string, string) -> bool, max: nat, r: Answer)
    requires StrictOrder(before) && IsAnswer(Sightings(names, domain), before, max, r)
    ensures forall i :: 0 <= i < |r.hosts| ==> IsCandidate(r.hosts[i].hostname, domain)
    ensures forall i, j :: 0 <= i < j < |r.hosts| ==> r.hosts[i].hostname != r.hosts[j].hostname
    ensures |r.hosts| <= max && (r.truncated ==> |r.hosts| == max)
    ensures r.truncated <==> exists s :: s in Sightings(names, domain) && s.name !in NamesOf(r.hosts)
  {
    var seen := Sightings(names, domain);
    var all: seq<CandidateHost> :| IsCompleteList(seen, before, all)
        && r == Answer(if |all| > max then all[..max] else all, |all| > max);
    forall i | 0 <= i < |r.hosts| ensures IsCandidate(r.hosts[i].hostname, domain) {
      assert r.hosts[i] == all[i];
      ListedIsCandidate(names, domain, all[i]);
    }
    forall i, j | 0 <= i < j < |r.hosts| ensures r.hosts[i].hostname != r.hosts[j].hostname {
      assert r.hosts[i] == all[i] && r.hosts[j] == all[j];
      AscendingIsDistinct(seen, before, all, i, j);
    }
    if r.truncated { CutLeavesANameOut(seen, before, max, all); }
  }

  // ---------------------------------------------------------------- the fold

  type Folded = map<string, CandidateHost>

  /** The map after the sightings in `seen`. */
  ghost predicate Folds(byName: Folded, seen: set<Sighting>) {
    && (forall name :: name in byName ==> byName[name].hostname == name && Summarizes(seen, byName[name]))
    && (forall s :: s in seen ==> s.name in byName)
  }

  function Noted(existing: Option<CandidateHost>, s: Sighting): CandidateHost {
    match existing
    case None => CandidateHost(s.name, s.wildcard, s.at)
    case Some(h) =>
      h.(wildcard := h.wildcard || s.wildcard,
         lastCertificateAt :=
           if s.at.Some? && (h.lastCertificateAt.None? || s.at.value > h.lastCertificateAt.value) then s.at
           else h.lastCertificateAt)
  }

  lemma NotedFirst(seen: set<Sighting>, s: Sighting)
    requires forall o :: o in seen ==> o.name != s.name
    ensures Summarizes(seen + {s}, Noted(None, s))
  {
    assert s in seen + {s};
  }

  lemma NotedAgain(seen: set<Sighting>, h: CandidateHost, s: Sighting)
    requires Summarizes(seen, h) && h.hostname == s.name
    ensures Summarizes(seen + {s}, Noted(Some(h), s))
  {
    var all, h' := seen + {s}, Noted(Some(h), s);
    assert s in all;
    forall o | o in seen ensures o in all {}
    assert h'.wildcard <==> exists o :: o in all && o.name == h.hostname && o.wildcard;
    assert IsLatest(all, h.hostname, h'.lastCertificateAt);
  }

  lemma OthersUntouched(seen: set<Sighting>, h: CandidateHost, s: Sighting)
    requires Summarizes(seen, h) && h.hostname != s.name
    ensures Summarizes(seen + {s}, h)
  {
    forall o | o in seen ensures o in seen + {s} {}
  }

  lemma FoldStep(byName: Folded, seen: set<Sighting>, s: Sighting)
    requires Folds(byName, seen)
    ensures Folds(byName[s.name := Noted(if s.name in byName then Some(byName[s.name]) else None, s)], seen + {s})
  {
    var existing := if s.name in byName then Some(byName[s.name]) else None;
    var byName' := byName[s.name := Noted(existing, s)];
    forall name | name in byName' ensures byName'[name].hostname == name && Summarizes(seen + {s}, byName'[name]) {
      if name != s.name {
        OthersUntouched(seen, byName[name], s);
      } else if s.name in byName {
        NotedAgain(seen, byName[s.name], s);
      } else {
        NotedFirst(seen, s);
      }
    }
  }

  lemma OneMoreWord(seen: set<Sighting>, words: seq<string>, i: nat, domain: string, at: Option<int>)
    requires i < |words|
    ensures seen + SightingsIn(words[..i + 1], domain, at) == seen + SightingsIn(words[..i], domain, at)
        + Seen(words[i], domain, at)
  {
    assert words[..i + 1] == words[..i] + [words[i]];
    assert forall v :: v in words[..i + 1] <==> v in words[..i] || v == words[i];
  }

  lemma OneMoreName(names: seq<CtName>, entry: CtName, domain: string)
    ensures Sightings(names + [entry], domain) == Sightings(names, domain) + SightingsOf(entry, domain)
  {
    var all := names + [entry];
    forall s | s in Sightings(names, domain) ensures s in Sightings(all, domain) {
      SeenInBoth(names, all, domain, s);
    }
    assert all[|names|] == entry;
    forall s | s in Sightings(all, domain) ensures s in Sightings(names, domain) || s in SightingsOf(entry, domain) {
      var i :| 0 <= i < |all| && s in SightingsOf(all[i], domain);
      if i < |names| { assert all[i] == names[i]; }
    }
  }

  /** What one part adds. */
  function Seen(w: string, domain: string, at: Option<int>): set<Sighting> {
    if Sight(w, domain, at).Some? then {Sight(w, domain, at).value} else {}
  }

  /** One turn of the inner loop. */
  method FoldWord(w: string, domain: string, notBefore: Option<int>, byName: Folded,
      ghost seen: set<Sighting>) returns (byName': Folded)
    requires Folds(byName, seen)
    ensures Folds(byName', seen + Seen(w, domain, notBefore))
  {
    var sighting := Sight(w, domain, notBefore);
    if sighting.None? {
      assert seen + {} == seen;
      return byName;
    }
    var s := sighting.value;
    FoldStep(byName, seen, s);
    if s.name !in byName {
      return byName[s.name := CandidateHost(s.name, s.wildcard, s.at)];
    }
    var existing := byName[s.name];
    var at := existing.lastCertificateAt;
    if s.at.Some? && (at.None? || s.at.value > at.value) {
      at := s.at;
    }
    byName' := byName[s.name := existing.(wildcard := existing.wildcard || s.wildcard, lastCertificateAt := at)];
  }

  /** The map after the first `i` parts. */
  ghost predicate FoldedUpTo(byName: Folded, seen: set<Sighting>, words: seq<string>, i: nat, domain: string,
      at: Option<int>)
    requires i <= |words|
  {
    Folds(byName, seen + SightingsIn(words[..i], domain, at))
  }

  lemma FoldedFromStart(byName: Folded, seen: set<Sighting>, words: seq<string>, domain: string, at: Option<int>)
    requires Folds(byName, seen)
    ensures FoldedUpTo(byName, seen, words, 0, domain, at)
  {
    assert seen + SightingsIn(words[..0], domain, at) == seen;
  }

  lemma FoldedToEnd(byName: Folded, seen: set<Sighting>, words: seq<string>, domain: string, at: Option<int>)
    requires FoldedUpTo(byName, seen, words, |words|, domain, at)
    ensures Folds(byName, seen + SightingsIn(words, domain, at))
  {
    assert words[..|words|] == words;
  }

  method FoldTurn(words: seq<string>, i: nat, domain: string, at: Option<int>, byName: Folded,
      ghost seen: set<Sighting>) returns (byName': Folded)
    requires i < |words| && FoldedUpTo(byName, seen, words, i, domain, at)
    ensures FoldedUpTo(byName', seen, words, i + 1, domain, at)
  {
    OneMoreWord(seen, words, i, domain, at);
    byName' := FoldWord(words[i], domain, at, byName, seen + SightingsIn(words[..i], domain, at));
  }

  /** The inner loop over the parts of one entry. */
  method FoldEntry(entry: CtName, domain: string, byName: Folded, ghost seen: set<Sighting>) returns (byName': Folded)
    requires Folds(byName, seen)
    ensures Folds(byName', seen + SightingsOf(entry, domain))
  {
    byName' := byName;
    var words := Words(entry.name, "");
    FoldedFromStart(byName, seen, words, domain, entry.notBefore);
    for i := 0 to |words|
      invariant FoldedUpTo(byName', seen, words, i, domain, entry.notBefore)
    {
      byName' := FoldTurn(words, i, domain, entry.notBefore, byName', seen);
    }
    FoldedToEnd(byName', seen, words, domain, entry.notBefore);
  }

  lemma {:induction false} SomeFirst(names: set<string>, before: (string, string) -> bool) returns (first: string)
    requires StrictOrder(before) && names != {}
    ensures first in names && forall n :: n in names && n != first ==> before(first, n)
    decreases |names|
  {
    first :| first in names;
    if names != {first} {
      var other := SomeFirst(names - {first}, before);
      if before(other, first) { first := other; }
    }
  }

  /** `hosts` holds the values taken so far, in order, and `left` the names still to come. */
  ghost predicate Sorting(byName: Folded, before: (string, string) -> bool, hosts: seq<CandidateHost>,
      left: set<string>) {
    && (forall i :: 0 <= i < |hosts| ==> hosts[i].hostname in byName && hosts[i] == byName[hosts[i].hostname])
    && (forall name :: name in byName <==> name in left || name in NamesOf(hosts))
    && (forall i, name :: 0 <= i < |hosts| && name in left ==> before(NamesOf(hosts)[i], name))
    && Ascending(NamesOf(hosts), before)
  }

  lemma SortingStep(byName: Folded, before: (string, string) -> bool, hosts: seq<CandidateHost>,
      left: set<string>, first: string)
    requires StrictOrder(before) && Sorting(byName, before, hosts, left)
    requires (forall name :: name in byName ==> byName[name].hostname == name)
    requires first in left && forall n :: n in left && n != first ==> before(first, n)
    ensures first in byName && Sorting(byName, before, hosts + [byName[first]], left - {first})
  {
    assert NamesOf(hosts + [byName[first]]) == NamesOf(hosts) + [first];
  }

  lemma SortingEnd(byName: Folded, before: (string, string) -> bool, hosts: seq<CandidateHost>, seen: set<Sighting>)
    requires Folds(byName, seen) && Sorting(byName, before, hosts, {})
    ensures IsCompleteList(seen, before, hosts)
  {
  }

  /** The sorted values of the map. */
  method SortedHosts(byName: Folded, before: (string, string) -> bool,
      ghost seen: set<Sighting>) returns (hosts: seq<CandidateHost>)
    requires StrictOrder(before) && Folds(byName, seen)
    ensures IsCompleteList(seen, before, hosts)
  {
    hosts := [];
    var left := byName.Keys;
    while left != {}
      invariant left <= byName.Keys
      invariant Sorting(byName, before, hosts, left)
      decreases |left|
    {
      ghost var some := SomeFirst(left, before);
      var first :| first in left && forall n :: n in left && n != first ==> before(first, n);
      SortingStep(byName, before, hosts, left, first);
      hosts := hosts + [byName[first]];
      left := left - {first};
    }
    SortingEnd(byName, before, hosts, seen);
  }

  /** The whole function. */
  method SubdomainsFromCt(names: seq<CtName>, domain: string, max: nat,
      before: (string, string) -> bool) returns (r: Answer)
    requires StrictOrder(before)
    ensures IsAnswer(Sightings(names, domain), before, max, r)
  {
    var byName: Folded := map[];
    assert Sightings(names[..0], domain) == {};
    for i := 0 to |names|
      invariant Folds(byName, Sightings(names[..i], domain))
    {
      assert names[..i + 1] == names[..i] + [names[i]];
      OneMoreName(names[..i], names[i], domain);
      byName := FoldEntry(names[i], domain, byName, Sightings(names[..i], domain));
    }
    assert names[..|names|] == names;
    var hosts := SortedHosts(byName, before, Sightings(names, domain));
    r := Answer(if |hosts| > max then hosts[..max] else hosts, |hosts| > max);
  }
}
