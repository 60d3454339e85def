/**
 The dependency advisory gate (security/dependency-scan/gate.mjs). Dates arrive as the milliseconds `Date.parse` gives,
 None for NaN; `today` is midnight UTC of the current day.
 */
module DependencyGate {
  import opened Common

  const MAX_EXCEPTION_DAYS := 90
  const DAY := 86_400_000

  /** A `via` entry of npm audit: a name that points at another package, or an advisory. */
  datatype Via = Transitive(name: string) | Direct(url: Option<string>, source: string, severity: string)

  datatype Package = Package(name: string, via: seq<Via>, fixAvailable: bool)

  datatype Audit = AuditError | NotAReport | Report(packages: seq<Package>)

  datatype Advisory = Advisory(id: string, pkg: string, severity: string, fixable: bool)

  /** The part of `s` after its last slash. */
  function LastSegment(s: string): string {
    if s == "" then "" else if s[|s| - 1] == '/' then "" else LastSegment(s[..|s| - 1]) + [s[|s| - 1]]
  }

  /** The segment is what follows the last slash, or everything when there is none. */
  lemma {:induction false} LastSegmentSplits(s: string) returns (before: string)
    ensures s == before + LastSegment(s) && '/' !in LastSegment(s) && (before == "" || before[|before| - 1] == '/')
  {
    before := s;
    if s == "" || s[|s| - 1] == '/' {
      assert s == s + "";
    } else {
      before := LastSegmentSplits(s[..|s| - 1]);
      assert s == s[..|s| - 1] + [s[|s| - 1]];
    }
  }

  function AdvisoryOf(p: Package, v: Via): Advisory
    requires v.Direct?
  {
    Advisory(if v.url.Some? then LastSegment(v.url.value) else v.source, p.name, v.severity, p.fixAvailable)
  }

  /** The key under which `advisories` files an entry. */
  function Key(a: Advisory): string {
    a.id + " " + a.pkg
  }

  function OfPackage(p: Package, n: nat): seq<Advisory>
    requires n <= |p.via|
  {
    if n == 0 then []
    else
      OfPackage(p, n - 1) +
      match p.via[n - 1]
      case Transitive(_) => []
      case Direct(Some(url), _, severity) => [Advisory(LastSegment(url), p.name, severity, p.fixAvailable)]
      case Direct(None, source, severity) => [Advisory(source, p.name, severity, p.fixAvailable)]
  }

  /** Every advisory of the report, in report order, repetitions included. */
  function Listed(packages: seq<Package>): seq<Advisory> {
    if packages == [] then []
    else Listed(packages[..|packages| - 1]) + OfPackage(packages[|packages| - 1], |packages[|packages| - 1].via|)
  }

  /** The map after filing the entries in order, each replacing an earlier one with the same key. */
  function Filed(list: seq<Advisory>): map<string, Advisory> {
    if list == [] then map[]
    else
      var last := list[|list| - 1];
      Filed(list[..|list| - 1])[Key(last) := last]
  }

  /** No later entry has the same key. */
  predicate IsLast(list: seq<Advisory>, i: int) {
    0 <= i < |list| && forall j :: i < j < |list| ==> Key(list[j]) != Key(list[i])
  }

  /** The map holds, under every key, exactly the last entry with that key. */
  lemma {:induction false} FiledIsLast(list: seq<Advisory>, i: int)
    requires IsLast(list, i)
    ensures Key(list[i]) in Filed(list) && Filed(list)[Key(list[i])] == list[i]
  {
    hide Key;
    var n := |list| - 1;
    if i < n {
      assert Key(list[n]) != Key(list[i]);
      assert list[..n][i] == list[i];
      assert forall j :: i < j < n ==> list[..n][j] == list[j];
      FiledIsLast(list[..n], i);
    }
  }

  lemma {:induction false} FiledComesFrom(list: seq<Advisory>, key: string) returns (i: int)
    requires key in Filed(list)
    ensures IsLast(list, i) && Filed(list)[key] == list[i] && Key(list[i]) == key
  {
    hide Key;
    var n := |list| - 1;
    if key == Key(list[n]) {
      i := n;
    } else {
      i := FiledComesFrom(list[..n], key);
      forall j | i < j < |list|
        ensures Key(list[j]) != Key(list[i])
      {
        assert j < n ==> Key(list[..n][j]) != Key(list[..n][i]);
      }
    }
  }

  lemma ListedOneMore(packages: seq<Package>, i: nat)
    requires i < |packages|
    ensures Listed(packages[..i + 1]) == Listed(packages[..i]) + OfPackage(packages[i], |packages[i].via|)
  {
    hide OfPackage;
    assert packages[..i + 1][..i] == packages[..i];
  }

  /** The inner loop of `advisories`: the entries of one package. */
  method FilePackage(start: map<string, Advisory>, p: Package, ghost before: seq<Advisory>) returns (found: map<string, Advisory>)
    requires start == Filed(before)
    ensures found == Filed(before + OfPackage(p, |p.via|))
  {
    hide Key, LastSegment, Filed;
    found := start;
    assert before + OfPackage(p, 0) == before;
    for j := 0 to |p.via|
      invariant found == Filed(before + OfPackage(p, j))
    {
      if p.via[j].Direct? {
        var a := AdvisoryOf(p, p.via[j]);
        found := found[Key(a) := a];
        FiledOneMore(before + OfPackage(p, j), a);
        assert before + OfPackage(p, j) + [a] == before + OfPackage(p, j + 1);
      } else {
        assert OfPackage(p, j + 1) == OfPackage(p, j);
      }
    }
  }

  /** advisories: one entry per key, later entries replacing earlier ones; a broken report is an error. */
  method Advisories(audit: Audit) returns (r: Result<map<string, Advisory>, ()>)
    ensures r.Ok? <==> audit.Report?
    ensures r.Ok? ==> r.value == Filed(Listed(audit.packages))
  {
    hide Key, AdvisoryOf, OfPackage;
    if !audit.Report? {
      return Err(());
    }
    var found := map[];
    for i := 0 to |audit.packages|
      invariant found == Filed(Listed(audit.packages[..i]))
    {
      found := FilePackage(found, audit.packages[i], Listed(audit.packages[..i]));
      ListedOneMore(audit.packages, i);
    }
    assert audit.packages[..|audit.packages|] == audit.packages;
    r := Ok(found);
  }

  lemma FiledOneMore(list: seq<Advisory>, a: Advisory)
    ensures Filed(list + [a]) == Filed(list)[Key(a) := a]
  {
    assert (list + [a])[..|list|] == list;
  }

  /** `services` as found in the file: absent, something other than a non-empty list of names, or such a list. */
  datatype Services = Everywhere | Malformed | Only(names: set<string>)

  /** An exception entry. A missing text is None, and so is a blank reason. */
  datatype Exception = Exception(
    id: Option<string>,
    package: Option<string>,
    reason: Option<string>,
    added: Option<int>,
    expires: Option<int>,
    services: Services)

  datatype Problem = NotAnArray | MissingText | BadDates | TooLong | Expired | BadServices

  /** A text that is missing or empty. */
  predicate Falsy(text: Option<string>) {
    text.None? || text.value == ""
  }

  /** The exception is complete, dated, limited to 90 days, not past its last day and properly scoped. */
  predicate InForce(e: Exception, today: int) {
    && e.id.Some? && e.id.value != "" && e.package.Some? && e.package.value != "" && e.reason.Some? && e.reason.value != ""
    && e.services != Malformed && e.added.Some? && e.expires.Some?
    && today <= e.expires.value <= e.added.value + 90 * 86_400_000
  }

  /** The rules an exception has to meet, by the problem reported for a violation. */
  predicate Violates(e: Exception, p: Problem, today: int) {
    match p
    case NotAnArray => false
    case MissingText => e.id in {None, Some("")} || e.package in {None, Some("")} || e.reason in {None, Some("")}
    case BadDates => e.added == None || e.expires == None
    case TooLong => e.added.Some? && e.expires.Some? && e.expires.value > e.added.value + 90 * 86_400_000
    case Expired => e.expires.Some? && e.expires.value < today
    case BadServices => e.services == Malformed
  }

  /** The order in which the rules are checked. */
  function Rank(p: Problem): nat {
    match p
    case NotAnArray => 0
    case MissingText => 1
    case BadDates => 2
    case TooLong => 3
    case Expired => 4
    case BadServices => 5
  }

  /** The first rule the exception violates; exactly the exceptions in force violate none. */
  function ProblemOf(e: Exception, today: int): (r: Option<Problem>)
    ensures r.None? <==> InForce(e, today)
    ensures r.Some? ==> Violates(e, r.value, today) && forall p :: Rank(p) < Rank(r.value) ==> !Violates(e, p, today)
  {
    if Falsy(e.id) || Falsy(e.package) || Falsy(e.reason) then Some(MissingText)
    else if e.added.None? || e.expires.None? then Some(BadDates)
    else if e.expires.value - e.added.value > MAX_EXCEPTION_DAYS * DAY then Some(TooLong)
    else if e.expires.value < today then Some(Expired)
    else if e.services.Malformed? then Some(BadServices)
    else None
  }

  /** checkExceptions; None stands for a file that does not hold an array. */
  method CheckExceptions(list: Option<seq<Exception>>, today: int) returns (valid: seq<Exception>, problems: seq<Problem>)
    ensures problems == [] <==> list.Some? && forall e :: e in list.value ==> InForce(e, today)
    ensures forall e :: e in valid <==> list.Some? && e in list.value && InForce(e, today)
    ensures list.Some? ==> |valid| + |problems| == |list.value|
  {
    valid, problems := [], [];
    if list.None? {
      return [], [NotAnArray];
    }
    var es := list.value;
    for i := 0 to |es|
      invariant problems == [] <==> forall j :: 0 <= j < i ==> InForce(es[j], today)
      invariant forall e :: e in valid <==> e in es[..i] && InForce(e, today)
      invariant |valid| + |problems| == i
    {
      var problem := ProblemOf(es[i], today);
      if problem.Some? {
        problems := problems + [problem.value];
      } else {
        valid := valid + [es[i]];
      }
    }
  }

  predicate Blocking(severity: string) {
    severity == "high" || severity == "critical"
  }

  predicate Matches(e: Exception, a: Advisory, service: Option<string>) {
    && e.id == Some(a.id) && e.package == Some(a.pkg)
    && (e.services.Everywhere? || (e.services.Only? && service.Some? && service.value in e.services.names))
  }

  // The documented rule, in words of its own.

  /** A high or critical advisory that has a fix. */
  predicate Serious(a: Advisory) {
    (a.severity == "high" || a.severity == "critical") && a.fixable
  }

  /** The exception names the advisory and applies to the service: to every service, or to a list that has it. */
  predicate Covers(e: Exception, a: Advisory, service: Option<string>) {
    && e.id == Some(a.id) && e.package == Some(a.pkg)
    && match e.services
       case Everywhere => true
       case Malformed => false
       case Only(names) => exists s :: s in names && service == Some(s)
  }

  /** The advisory must not reach production: serious, fixable, and no exception in force covers it. */
  ghost predicate Blocks(a: Advisory, exceptions: seq<Exception>, service: Option<string>, today: int) {
    Serious(a) && !exists e :: e in exceptions && InForce(e, today) && Covers(e, a, service)
  }

  /** The declarative rule of the gate. */
  ghost predicate Passes(audit: Audit, exceptions: Option<seq<Exception>>, service: Option<string>, today: int) {
    && audit.Report? && exceptions.Some?
    && (forall e :: e in exceptions.value ==> InForce(e, today))
    && (forall a :: a in Listed(audit.packages) ==> !Blocks(a, exceptions.value, service, today))
  }

  /** The verdict as the code reaches it: only the last entry of every key counts. */
  ghost predicate PassesOnLast(audit: Audit, exceptions: Option<seq<Exception>>, service: Option<string>, today: int) {
    && audit.Report? && exceptions.Some?
    && (forall e :: e in exceptions.value ==> InForce(e, today))
    && (forall i :: IsLast(Listed(audit.packages), i) ==> !Blocks(Listed(audit.packages)[i], exceptions.value, service, today))
  }

  lemma {:induction false} LastOf(list: seq<Advisory>, i: int) returns (k: int)
    requires 0 <= i < |list|
    ensures i <= k && IsLast(list, k) && Key(list[k]) == Key(list[i])
    decreases |list| - i
  {
    if IsLast(list, i) {
      k := i;
    } else {
      var j :| i < j < |list| && Key(list[j]) == Key(list[i]);
      k := LastOf(list, j);
    }
  }

  /** What blocks among the filed entries is what blocks among the last entries of the list. */
  lemma BlockingIsOnLast(list: seq<Advisory>, exceptions: seq<Exception>, service: Option<string>, today: int)
    ensures (forall k :: k in Filed(list) ==> !Blocks(Filed(list)[k], exceptions, service, today))
            <==> (forall i :: IsLast(list, i) ==> !Blocks(list[i], exceptions, service, today))
  {
    hide Key, Blocks, Filed;
    if forall k :: k in Filed(list) ==> !Blocks(Filed(list)[k], exceptions, service, today) {
      forall i | IsLast(list, i)
        ensures !Blocks(list[i], exceptions, service, today)
      {
        FiledIsLast(list, i);
      }
    }
    if forall i :: IsLast(list, i) ==> !Blocks(list[i], exceptions, service, today) {
      forall k | k in Filed(list)
        ensures !Blocks(Filed(list)[k], exceptions, service, today)
      {
        var i := FiledComesFrom(list, k);
      }
    }
  }

  /** The code's tests say what the rule says. */
  lemma SameWords(a: Advisory, service: Option<string>)
    ensures Blocking(a.severity) && a.fixable <==> Serious(a)
    ensures forall e :: Matches(e, a, service) <==> Covers(e, a, service)
  {
  }

  /** The verdict spelled out: every last entry that is high or critical and fixable has its exception. */
  ghost predicate AllExcepted(list: seq<Advisory>, exceptions: seq<Exception>, service: Option<string>) {
    forall i :: IsLast(list, i) && list[i].severity in {"high", "critical"} && list[i].fixable ==>
      exists e :: e in exceptions && e.id == Some(list[i].id) && e.package == Some(list[i].pkg)
                  && (e.services.Everywhere? || (e.services.Only? && service.Some? && service.value in e.services.names))
  }

  lemma NothingBlocks(list: seq<Advisory>, es: seq<Exception>, service: Option<string>, today: int)
    requires forall e :: e in es ==> InForce(e, today)
    ensures AllExcepted(list, es, service) <==> forall i :: IsLast(list, i) ==> !Blocks(list[i], es, service, today)
  {
    hide InForce, Key;
    if AllExcepted(list, es, service) {
      forall i | IsLast(list, i)
        ensures !Blocks(list[i], es, service, today)
      {
        if Serious(list[i]) {
          var e :| e in es && e.id == Some(list[i].id) && e.package == Some(list[i].pkg)
                   && (e.services.Everywhere? || (e.services.Only? && service.Some? && service.value in e.services.names));
          assert Covers(e, list[i], service);
        }
      }
    }
  }

  /** evaluate: None when the report is unusable (the script then fails). */
  method Evaluate(audit: Audit, exceptions: Option<seq<Exception>>, service: Option<string>, today: int) returns (ok: Option<bool>)
    ensures ok.None? <==> !audit.Report?
    ensures ok == Some(true) <==> PassesOnLast(audit, exceptions, service, today)
    ensures ok == Some(true) <==>
              && audit.Report? && exceptions.Some? && (forall e :: e in exceptions.value ==> InForce(e, today))
              && AllExcepted(Listed(audit.packages), exceptions.value, service)
  {
    hide Key, Filed, Listed, IsLast, ProblemOf, InForce, Matches, Covers, Blocking, Serious, AllExcepted;
    var valid, problems := CheckExceptions(exceptions, today);
    var r := Advisories(audit);
    if r.Err? {
      return None;
    }
    var found := r.value;
    var blocking := set k | k in found && Blocking(found[k].severity) && found[k].fixable
                            && !exists e :: e in valid && Matches(e, found[k], service);
    if problems == [] {
      NothingBlocks(Listed(audit.packages), exceptions.value, service, today);
      BlockingIsOnLast(Listed(audit.packages), exceptions.value, service, today);
      forall k | k in found
        ensures k in blocking <==> Blocks(found[k], exceptions.value, service, today)
      {
        SameWords(found[k], service);
      }
      assert blocking == {} <==> forall k :: k in found ==> k !in blocking;
    }
    ok := Some(blocking == {} && problems == []);
  }

  // The code looks only at the last entry of every key. When that is enough, and when it is not.

  function NameOf(a: Advisory): (string, string) {
    (a.id, a.pkg)
  }

  /** Whatever is serious and fixable is still so in the last entry filed under its key, under the same name. */
  ghost predicate NothingHidden(list: seq<Advisory>) {
    forall i, k :: 0 <= i < |list| && Serious(list[i]) && IsLast(list, k) && Key(list[k]) == Key(list[i]) ==>
      Serious(list[k]) && NameOf(list[k]) == NameOf(list[i])
  }

  /** A last entry that no exception can name: the report fails whatever the exceptions are. */
  ghost predicate Hopeless(list: seq<Advisory>) {
    exists k :: IsLast(list, k) && Serious(list[k]) && (list[k].id == "" || list[k].pkg == "")
  }

  /** Coverage depends on the name of an advisory only. */
  lemma SameNameSameCover(a: Advisory, b: Advisory, es: seq<Exception>, service: Option<string>, today: int)
    requires NameOf(a) == NameOf(b) && Serious(a) && Serious(b)
    ensures Blocks(a, es, service, today) <==> Blocks(b, es, service, today)
  {
    hide InForce, Serious;
    assert forall e :: Covers(e, a, service) <==> Covers(e, b, service);
  }

  lemma MildNeverBlocks(a: Advisory, es: seq<Exception>, service: Option<string>, today: int)
    requires !Serious(a)
    ensures !Blocks(a, es, service, today)
  {
  }

  lemma UncoveredBlocks(a: Advisory, es: seq<Exception>, service: Option<string>, today: int)
    requires Serious(a) && forall e :: e in es ==> (e.id, e.package) != (Some(a.id), Some(a.pkg))
    ensures Blocks(a, es, service, today)
  {
  }

  lemma CoveredNeverBlocks(a: Advisory, es: seq<Exception>, service: Option<string>, today: int)
    requires a.id != "" && a.pkg != "" && ExceptionFor(NameOf(a), today) in es
    ensures !Blocks(a, es, service, today)
  {
    assert Covers(ExceptionFor(NameOf(a), today), a, service);
  }

  lemma SameNameSameKey(a: Advisory, b: Advisory)
    requires NameOf(a) == NameOf(b)
    ensures Key(a) == Key(b)
  {
  }

  lemma RuleImpliesVerdict(audit: Audit, exceptions: Option<seq<Exception>>, service: Option<string>, today: int)
    requires Passes(audit, exceptions, service, today)
    ensures PassesOnLast(audit, exceptions, service, today)
  {
    hide Key, Blocks, InForce, Listed;
    var list := Listed(audit.packages);
    assert forall k :: IsLast(list, k) ==> list[k] in list;
  }

  /** On a report that hides nothing, or fails anyway, the verdict is the rule. */
  lemma VerdictIsTheRuleIf(audit: Audit, exceptions: Option<seq<Exception>>, service: Option<string>, today: int)
    requires audit.Report? && (NothingHidden(Listed(audit.packages)) || Hopeless(Listed(audit.packages)))
    ensures PassesOnLast(audit, exceptions, service, today) <==> Passes(audit, exceptions, service, today)
  {
    hide Key, Blocks, InForce, Listed, Serious, IsLast;
    var list := Listed(audit.packages);
    if PassesOnLast(audit, exceptions, service, today) {
      NotHopeless(list, exceptions.value, service, today);
      forall a | a in list
        ensures !Blocks(a, exceptions.value, service, today)
      {
        var i :| 0 <= i < |list| && list[i] == a;
        var k := LastOf(list, i);
        assert !Blocks(list[k], exceptions.value, service, today);
        if Serious(a) {
          SameNameSameCover(list[k], a, exceptions.value, service, today);
        } else {
          MildNeverBlocks(a, exceptions.value, service, today);
        }
      }
    }
    if Passes(audit, exceptions, service, today) {
      RuleImpliesVerdict(audit, exceptions, service, today);
    }
  }

  lemma NotHopeless(list: seq<Advisory>, es: seq<Exception>, service: Option<string>, today: int)
    requires forall k :: IsLast(list, k) ==> !Blocks(list[k], es, service, today)
    ensures !Hopeless(list)
  {
    hide Key;
  }

  /** An exception in force for everything called `name`. */
  function ExceptionFor(name: (string, string), today: int): Exception {
    Exception(Some(name.0), Some(name.1), Some("accepted"), Some(today), Some(today), Everywhere)
  }

  /** Exceptions for everything in the list that can be excepted, except for what is called `but`. */
  function AllBut(list: seq<Advisory>, but: (string, string), today: int): seq<Exception> {
    if list == [] then []
    else
      var name := NameOf(list[0]);
      (if name == but || name.0 == "" || name.1 == "" then [] else [ExceptionFor(name, today)])
      + AllBut(list[1..], but, today)
  }

  lemma {:induction false} AllButCovers(list: seq<Advisory>, but: (string, string), today: int)
    ensures forall e :: e in AllBut(list, but, today) ==> InForce(e, today) && (e.id, e.package) != (Some(but.0), Some(but.1))
    ensures forall a :: a in list && NameOf(a) != but && a.id != "" && a.pkg != "" ==>
              ExceptionFor(NameOf(a), today) in AllBut(list, but, today)
  {
    if list != [] {
      AllButCovers(list[1..], but, today);
    }
  }

  /** If something is hidden and the report is not hopeless, some exceptions make it pass against the rule. */
  lemma HidingDefeatsTheRule(audit: Audit, service: Option<string>, today: int) returns (es: seq<Exception>)
    requires audit.Report? && !NothingHidden(Listed(audit.packages)) && !Hopeless(Listed(audit.packages))
    ensures PassesOnLast(audit, Some(es), service, today) && !Passes(audit, Some(es), service, today)
  {
    hide Listed, Serious, InForce, Key, Blocks, AllBut;
    var list := Listed(audit.packages);
    var i, k :| 0 <= i < |list| && Serious(list[i]) && IsLast(list, k) && Key(list[k]) == Key(list[i])
                && !(Serious(list[k]) && NameOf(list[k]) == NameOf(list[i]));
    var but := NameOf(list[i]);
    es := AllBut(list, but, today);
    AllButCovers(list, but, today);
    UncoveredBlocks(list[i], es, service, today);
    assert list[i] in list;
    forall j | IsLast(list, j)
      ensures !Blocks(list[j], es, service, today)
    {
      if NameOf(list[j]) == but {
        assert Key(list[j]) == Key(list[i]) by {
          SameNameSameKey(list[j], list[i]);
        }
        assert j == k;
        MildNeverBlocks(list[j], es, service, today);
      } else if Serious(list[j]) {
        CoveredNeverBlocks(list[j], es, service, today);
      } else {
        MildNeverBlocks(list[j], es, service, today);
      }
    }
  }

  /**
   The verdict is the documented rule for every list of exceptions exactly when the report hides nothing serious behind
   a milder or differently named entry with the same key, or fails in any case.
   */
  lemma VerdictIsTheRule(audit: Audit, service: Option<string>, today: int)
    requires audit.Report?
    ensures (forall exceptions ::
               PassesOnLast(audit, exceptions, service, today) <==> Passes(audit, exceptions, service, today))
            <==> NothingHidden(Listed(audit.packages)) || Hopeless(Listed(audit.packages))
  {
    hide *;
    if NothingHidden(Listed(audit.packages)) || Hopeless(Listed(audit.packages)) {
      forall exceptions
        ensures PassesOnLast(audit, exceptions, service, today) <==> Passes(audit, exceptions, service, today)
      {
        VerdictIsTheRuleIf(audit, exceptions, service, today);
      }
    } else {
      var es := HidingDefeatsTheRule(audit, service, today);
    }
  }

  /** Where the verdict is the rule, it does not depend on the order of packages, advisories or exceptions. */
  lemma OrderDoesNotMatter(a: Audit, b: Audit, es: seq<Exception>, fs: seq<Exception>, service: Option<string>, today: int)
    requires a.Report? && (NothingHidden(Listed(a.packages)) || Hopeless(Listed(a.packages)))
    requires b.Report? && (NothingHidden(Listed(b.packages)) || Hopeless(Listed(b.packages)))
    requires multiset(Listed(a.packages)) == multiset(Listed(b.packages)) && multiset(es) == multiset(fs)
    ensures PassesOnLast(a, Some(es), service, today) <==> PassesOnLast(b, Some(fs), service, today)
  {
    hide Key, InForce, Covers, PassesOnLast, NothingHidden, Hopeless;
    VerdictIsTheRuleIf(a, Some(es), service, today);
    VerdictIsTheRuleIf(b, Some(fs), service, today);
    assert forall e :: e in es <==> e in multiset(es);
    assert forall e :: e in fs <==> e in multiset(fs);
    assert forall x :: x in Listed(a.packages) <==> x in multiset(Listed(a.packages));
    assert forall x :: x in Listed(b.packages) <==> x in multiset(Listed(b.packages));
  }

  /** Two ids without a space that give the same key with some packages are equal, and so are the packages. */
  lemma KeyNames(a: Advisory, b: Advisory)
    requires Key(a) == Key(b) && ' ' !in a.id && ' ' !in b.id
    ensures NameOf(a) == NameOf(b)
  {
    var key := Key(a);
    assert key[|a.id|] == ' ' && key[|b.id|] == ' ';
    assert forall i :: 0 <= i < |a.id| ==> key[i] == a.id[i] && a.id[i] in a.id;
    assert forall i :: 0 <= i < |b.id| ==> key[i] == b.id[i] && b.id[i] in b.id;
    assert |a.id| == |b.id|;
    assert key[..|a.id|] == a.id && key[..|b.id|] == b.id;
    assert key[|a.id| + 1..] == a.pkg && key[|b.id| + 1..] == b.pkg;
  }

  /** A report hides nothing, in any order, when its ids have no spaces and repetitions agree on what is serious. */
  lemma AgreementHidesNothing(list: seq<Advisory>)
    requires forall a :: a in list ==> ' ' !in a.id
    requires forall a, b :: a in list && b in list && NameOf(a) == NameOf(b) ==> (Serious(a) <==> Serious(b))
    ensures NothingHidden(list)
  {
    hide Key, Serious, NameOf;
    forall i, k | 0 <= i < |list| && Serious(list[i]) && IsLast(list, k) && Key(list[k]) == Key(list[i])
      ensures Serious(list[k]) && NameOf(list[k]) == NameOf(list[i])
    {
      assert list[i] in list && list[k] in list;
      KeyNames(list[k], list[i]);
    }
  }

  /** Adding an exception that is in force never turns a pass into a failure. */
  lemma ExceptionsOnlyHelp(audit: Audit, es: seq<Exception>, e: Exception, service: Option<string>, today: int)
    requires InForce(e, today) && PassesOnLast(audit, Some(es), service, today)
    ensures PassesOnLast(audit, Some(es + [e]), service, today)
  {
    hide Key, InForce, Covers;
    forall i | IsLast(Listed(audit.packages), i)
      ensures !Blocks(Listed(audit.packages)[i], es + [e], service, today)
    {
      var a := Listed(audit.packages)[i];
      assert !Blocks(a, es, service, today);
      if Serious(a) {
        var x :| x in es && InForce(x, today) && Covers(x, a, service);
        assert x in es + [e];
      }
    }
  }

  /** A report whose second entry for the same advisory and package is milder hides the serious one. */
  const HIDING := Report([Package("lodash", [Direct(None, "G", "high"), Direct(None, "G", "low")], true)])

  lemma DisagreementHidesAnAdvisory(today: int)
    ensures PassesOnLast(HIDING, Some([]), None, today) && !Passes(HIDING, Some([]), None, today)
  {
    var p := HIDING.packages[0];
    assert HIDING.packages[..0] == [];
    assert OfPackage(p, 1) == [Advisory("G", "lodash", "high", true)];
    assert OfPackage(p, 2) == [Advisory("G", "lodash", "high", true), Advisory("G", "lodash", "low", true)];
    var list := Listed(HIDING.packages);
    assert list == OfPackage(p, 2);
    assert Key(list[0]) == Key(list[1]);
    assert forall i :: IsLast(list, i) ==> i == 1;
    assert list[0] in list && Blocks(list[0], [], None, today);
  }
}
