/** Subscriptions written into the URL of an EventStream connection: the split, regular
    expression and key=value loops that read them. */
module InlineSubscriptions {
  import opened Options
  import opened Slices

  /** What is handed to the Subscribe command. */
  datatype Sub = Sub(typ: string, condition: map<string, string>)

  // ---------------------------------------------------------------- library pieces

  /** `strings.Split` on a one-character separator. */
  function Split(s: string, sep: char): seq<string> {
    SplitFrom(s, sep, 0, 0)
  }

  /** The parts from position start on, when the characters from start to i are no separators. */
  function SplitFrom(s: string, sep: char, start: nat, i: nat): (parts: seq<string>)
    requires start <= i <= |s|
    ensures parts != []
    decreases |s| - i
  {
    if i == |s| then [s[start..]]
    else if s[i] == sep then [s[start..i]] + SplitFrom(s, sep, i + 1, i + 1)
    else SplitFrom(s, sep, start, i + 1)
  }

  predicate WordChar(c: char) {
    '0' <= c <= '9' || 'A' <= c <= 'Z' || 'a' <= c <= 'z' || c == '_'
  }

  predicate ActionChar(c: char) {
    '0' <= c <= '9' || 'A' <= c <= 'Z' || 'a' <= c <= 'z' || c == '*'
  }

  /** Where a greedy `\w+` that starts at i ends. */
  function WordEnd(s: string, i: nat): (n: nat)
    requires i <= |s|
    ensures i <= n <= |s|
    ensures forall j | i <= j < n :: WordChar(s[j])
    ensures n < |s| ==> !WordChar(s[n])
    decreases |s| - i
  {
    if i == |s| || !WordChar(s[i]) then i else WordEnd(s, i + 1)
  }

  function ActionEnd(s: string, i: nat): (n: nat)
    requires i <= |s|
    ensures i <= n <= |s|
    ensures forall j | i <= j < n :: ActionChar(s[j])
    ensures n < |s| ==> !ActionChar(s[n])
    decreases |s| - i
  {
    if i == |s| || !ActionChar(s[i]) then i else ActionEnd(s, i + 1)
  }

  /** The last '>' strictly before n and after position 1, or 0. */
  function LastClose(s: string, n: nat): (j: nat)
    requires n <= |s|
    ensures j == 0 || (2 <= j < n && s[j] == '>')
    ensures forall k | 2 <= k < n && s[k] == '>' :: k <= j
  {
    if n <= 2 then 0 else if s[n - 1] == '>' then n - 1 else LastClose(s, n - 1)
  }

  /** The optional group `(\<(?P<CND>.+)\>)?` at the front of s: from '<' to the last '>' of the
      line with something in between; empty when the group does not take part. */
  function ConditionGroup(s: string): string {
    if s == "" || s[0] != '<' then "" else
      var j := LastClose(s, Find(s, '\n'));
      if j == 0 then "" else s[1..j]
  }

  datatype Groups = Groups(evt: string, cnd: string)

  /** `(?P<EVT>^\w+\.[a-zA-Z0-9*]+)(\<(?P<CND>.+)\>)?`, leftmost-first. The dot is no word
      character and the group is optional, so no backtracking shortens a greedy repetition. */
  function FindSubmatch(s: string): Option<Groups> {
    var n := WordEnd(s, 0);
    if n == 0 || n == |s| || s[n] != '.' then None else
      var k := ActionEnd(s, n + 1);
      if k == n + 1 then None else Some(Groups(s[..k], ConditionGroup(s[k..])))
  }

  // ---------------------------------------------------------------- specification

  /** The key=value loop over the first n parts: those without exactly one '=' are skipped, later
      keys win. */
  function Pairs(conds: seq<string>, n: nat): map<string, string>
    requires n <= |conds|
  {
    if n == 0 then map[] else
      var before := Pairs(conds, n - 1);
      var kv := Split(conds[n - 1], '=');
      if |kv| == 2 then before[kv[0] := kv[1]] else before
  }

  function Conditions(cnd: string): map<string, string> {
    var conds := Split(cnd, ';');
    Pairs(conds, |conds|)
  }

  function ReadPart(part: string): seq<Sub> {
    match FindSubmatch(part)
    case None => []
    case Some(g) => [Sub(g.evt, Conditions(g.cnd))]
  }

  function Reads(parts: seq<string>): (r: seq<seq<Sub>>)
    ensures |r| == |parts|
  {
    seq(|parts|, i requires 0 <= i < |parts| => ReadPart(parts[i]))
  }

  /** The first n of some lists, one after the other. */
  function Flat(lists: seq<seq<Sub>>, n: nat): seq<Sub>
    requires n <= |lists|
  {
    if n == 0 then [] else Flat(lists, n - 1) + lists[n - 1]
  }

  /** Every subscription named by the unescaped URL parameter. */
  function Read(s: string): seq<Sub> {
    if s == "" || s[0] != '@' then [] else
      var parts := Split(s[1..], ',');
      Flat(Reads(parts), |parts|)
  }

  // ---------------------------------------------------------------- the loops

  method ReadConditions(cnd: string) returns (cm: map<string, string>)
    ensures cm == Conditions(cnd)
  {
    var conds := Split(cnd, ';');
    cm := map[];
    for j := 0 to |conds|
      invariant cm == Pairs(conds, j)
    {
      var kv := Split(conds[j], '=');
      if |kv| != 2 {
        continue;
      }
      cm := cm[kv[0] := kv[1]];
    }
  }

  method ReadItem(subStr: string) returns (sub: Option<Sub>)
    ensures ReadPart(subStr) == if sub == None then [] else [sub.value]
  {
    var matches := FindSubmatch(subStr);
    if matches == None {
      return None;
    }
    var cm := ReadConditions(matches.value.cnd);
    return Some(Sub(matches.value.evt, cm));
  }

  /** The Subscribe command accepted its first n calls. */
  predicate AllAccepted(accepts: nat -> bool, n: nat) {
    n == 0 || (accepts(n - 1) && AllAccepted(accepts, n - 1))
  }

  /** The goroutine of `SSE`: hands each subscription to the Subscribe command until one is not
      accepted; `accepts(n)` is the command's answer to the n-th call. */
  method SubscribeInline(s: string, accepts: nat -> bool) returns (handed: seq<Sub>)
    ensures handed <= Read(s)
    ensures !("@" <= s) ==> handed == []
    ensures handed != [] ==> AllAccepted(accepts, |handed| - 1)
    ensures handed == Read(s) || (handed != [] && !accepts(|handed| - 1))
  {
    if s == "" || s[0] != '@' {
      return [];
    }
    handed := SubscribeEach(Split(s[1..], ','), accepts);
  }

  method SubscribeEach(subStrs: seq<string>, accepts: nat -> bool) returns (handed: seq<Sub>)
    ensures handed <= Flat(Reads(subStrs), |subStrs|)
    ensures handed != [] ==> AllAccepted(accepts, |handed| - 1)
    ensures handed == Flat(Reads(subStrs), |subStrs|) || (handed != [] && !accepts(|handed| - 1))
  {
    var n, more;
    handed, n, more := HandEach(subStrs, accepts);
    FlatGrows(Reads(subStrs), n, |subStrs|);
    AnswersMean(accepts, |handed|, more);
  }

  /** The loop, which stops at the n-th part. */
  method HandEach(subStrs: seq<string>, accepts: nat -> bool) returns (handed: seq<Sub>, n: nat, going: bool)
    ensures Handed(subStrs, accepts, handed, n, going)
    ensures going ==> n == |subStrs|
  {
    handed := [];
    var j, more := 0, true;
    while j < |subStrs| && more
      invariant 0 <= j <= |subStrs| && Handed(subStrs, accepts, handed, j, more)
    {
      handed, more := HandNext(subStrs, j, handed, accepts);
      j := j + 1;
    }
    n, going := j, more;
  }

  /** What the first n parts name has been handed over, and answered as `more` says. */
  predicate Handed(subStrs: seq<string>, accepts: nat -> bool, handed: seq<Sub>, n: nat, more: bool) {
    n <= |subStrs| && handed == Flat(Reads(subStrs), n) && Answers(accepts, |handed|, more)
  }

  lemma {:induction false} AnswersMean(accepts: nat -> bool, n: nat, more: bool)
    requires Answers(accepts, n, more)
    ensures n > 0 ==> AllAccepted(accepts, n - 1)
    ensures !more ==> n > 0 && !accepts(n - 1)
  {
  }

  /** All n calls were accepted, or all but the last. */
  predicate Answers(accepts: nat -> bool, n: nat, more: bool) {
    if more then AllAccepted(accepts, n) else n > 0 && AllAccepted(accepts, n - 1) && !accepts(n - 1)
  }

  /** The body of the loop; `more` is false where it returns. */
  method HandNext(subStrs: seq<string>, j: nat, before: seq<Sub>, accepts: nat -> bool) returns (handed: seq<Sub>,
                  more: bool)
    requires j < |subStrs| && Handed(subStrs, accepts, before, j, true)
    ensures Handed(subStrs, accepts, handed, j + 1, more)
  {
    var sub := ReadItem(subStrs[j]);
    assert Flat(Reads(subStrs), j + 1) == before + ReadPart(subStrs[j]);
    if sub == None {
      return before, true;
    }
    return before + [sub.value], accepts(|before|);
  }

  /** Further lists come at the end. */
  lemma {:induction false} FlatGrows(lists: seq<seq<Sub>>, n: nat, m: nat)
    requires n <= m <= |lists|
    ensures Flat(lists, n) <= Flat(lists, m)
    ensures (forall j | n <= j < m :: |lists[j]| <= 1) ==> |Flat(lists, m)| <= |Flat(lists, n)| + m - n
    decreases m
  {
    if n < m {
      FlatGrows(lists, n, m - 1);
    }
  }

  // ---------------------------------------------------------------- printing in the documented syntax

  datatype Item = Item(obj: string, action: string, pairs: seq<(string, string)>)
  {
    function Typ(): string {
      obj + "." + action
    }
  }

  function Join(parts: seq<string>, sep: char): string
    requires parts != []
  {
    if |parts| == 1 then parts[0] else parts[0] + [sep] + Join(parts[1..], sep)
  }

  function PairText(p: (string, string)): string {
    p.0 + "=" + p.1
  }

  function PairTexts(pairs: seq<(string, string)>): (r: seq<string>)
    ensures |r| == |pairs|
  {
    seq(|pairs|, i requires 0 <= i < |pairs| => PairText(pairs[i]))
  }

  /** The condition text of an item, brackets and all. */
  function Brackets(pairs: seq<(string, string)>): string {
    if pairs == [] then "" else "<" + Join(PairTexts(pairs), ';') + ">"
  }

  function Print(item: Item): string {
    item.Typ() + Brackets(item.pairs)
  }

  function Prints(items: seq<Item>): (r: seq<string>)
    ensures |r| == |items|
  {
    seq(|items|, i requires 0 <= i < |items| => Print(items[i]))
  }

  /** The text between the '@' and the end. */
  function Body(items: seq<Item>): string {
    if items == [] then "" else Join(Prints(items), ',')
  }

  function PrintAll(items: seq<Item>): string {
    "@" + Body(items)
  }

  /** The pairs read as a map, later ones over earlier ones. */
  function MapOf(pairs: seq<(string, string)>): map<string, string> {
    if pairs == [] then map[] else MapOf(pairs[..|pairs| - 1])[pairs[|pairs| - 1].0 := pairs[|pairs| - 1].1]
  }

  function Meaning(item: Item): Sub {
    Sub(item.Typ(), MapOf(item.pairs))
  }

  function Meanings(items: seq<Item>): (r: seq<Sub>)
    ensures |r| == |items|
  {
    seq(|items|, i requires 0 <= i < |items| => Meaning(items[i]))
  }

  predicate Plain(s: string) {
    forall i | 0 <= i < |s| :: s[i] != ',' && s[i] != ';' && s[i] != '=' && s[i] != '\n'
  }

  predicate LetterOrDigit(c: char) {
    'a' <= c <= 'z' || 'A' <= c <= 'Z' || '0' <= c <= '9'
  }

  /** Letters, digits and underscores. */
  predicate Word(s: string) {
    forall i | 0 <= i < |s| :: LetterOrDigit(s[i]) || s[i] == '_'
  }

  /** Letters, digits and wildcards: what the regular expression takes as the action. */
  predicate InAction(c: char) {
    LetterOrDigit(c) || c == '*'
  }

  predicate Action(s: string) {
    forall i | 0 <= i < |s| :: InAction(s[i])
  }

  /** A documented type, wildcard included, and keys and values free of the separators. */
  predicate Documented(item: Item) {
    && item.obj != "" && Word(item.obj)
    && item.action != "" && (forall i | 0 <= i < |item.action| :: InAction(item.action[i]) || item.action[i] == '_')
    && forall p | p in item.pairs :: Plain(p.0) && Plain(p.1)
  }

  // ---------------------------------------------------------------- splitting what was joined

  predicate Lacks(s: string, sep: char) {
    forall i | 0 <= i < |s| :: s[i] != sep
  }

  /** Characters that are no separators are passed over. */
  lemma {:induction false} SplitPasses(s: string, sep: char, start: nat, i: nat, n: nat)
    requires start <= i <= n <= |s| && forall j | i <= j < n :: s[j] != sep
    ensures SplitFrom(s, sep, start, i) == SplitFrom(s, sep, start, n)
    decreases n - i
  {
    if i < n {
      SplitPasses(s, sep, start, i + 1, n);
    }
  }

  /** The parts of a text do not depend on what stands before it. */
  lemma {:induction false} SplitShifts(p: string, s: string, sep: char, start: nat, i: nat)
    requires start <= i <= |s|
    ensures SplitFrom(p + s, sep, |p| + start, |p| + i) == SplitFrom(s, sep, start, i)
    decreases |s| - i
  {
    assert (p + s)[|p| + start..] == s[start..] && (p + s)[|p| + start..|p| + i] == s[start..i];
    if i < |s| {
      assert (p + s)[|p| + i] == s[i];
      if s[i] == sep {
        SplitShifts(p, s, sep, i + 1, i + 1);
      } else {
        SplitShifts(p, s, sep, start, i + 1);
      }
    }
  }

  lemma {:induction false} SplitOne(s: string, sep: char)
    requires Lacks(s, sep)
    ensures Split(s, sep) == [s]
  {
    SplitPasses(s, sep, 0, 0, |s|);
    assert s[0..] == s;
  }

  lemma {:induction false} SplitFirst(s: string, sep: char, rest: string)
    requires Lacks(s, sep)
    ensures Split(s + [sep] + rest, sep) == [s] + Split(rest, sep)
  {
    var all := s + [sep] + rest;
    assert all[|s|] == sep;
    assert forall j | 0 <= j < |s| :: all[j] == s[j];
    SplitPasses(all, sep, 0, 0, |s|);
    assert all[0..|s|] == s;
    SplitShifts(s + [sep], rest, sep, 0, 0);
  }

  lemma {:induction false} SplitJoin(parts: seq<string>, sep: char)
    requires parts != [] && forall p | p in parts :: Lacks(p, sep)
    ensures Split(Join(parts, sep), sep) == parts
    decreases |parts|
  {
    assert parts[0] in parts;
    if |parts| == 1 {
      SplitOne(parts[0], sep);
    } else {
      assert forall p | p in parts[1..] :: p in parts;
      SplitFirst(parts[0], sep, Join(parts[1..], sep));
      SplitJoin(parts[1..], sep);
      HeadAndTail(parts);
    }
  }

  lemma {:induction false} HeadAndTail(parts: seq<string>)
    requires parts != []
    ensures [parts[0]] + parts[1..] == parts
  {
  }

  lemma {:induction false} JoinLacks(parts: seq<string>, sep: char, c: char)
    requires parts != [] && c != sep && forall p | p in parts :: Lacks(p, c)
    ensures Lacks(Join(parts, sep), c)
    decreases |parts|
  {
    assert parts[0] in parts;
    if |parts| > 1 {
      assert forall p | p in parts[1..] :: p in parts;
      JoinLacks(parts[1..], sep, c);
      ConcatLacks(parts[0], [sep], c);
      ConcatLacks(parts[0] + [sep], Join(parts[1..], sep), c);
    }
  }

  lemma {:induction false} ConcatLacks(a: string, b: string, c: char)
    requires Lacks(a, c) && Lacks(b, c)
    ensures Lacks(a + b, c)
  {
  }

  lemma {:induction false} PairLacks(p: (string, string), c: char)
    requires Plain(p.0) && Plain(p.1) && (c == ',' || c == ';' || c == '\n')
    ensures Lacks(PairText(p), c)
  {
    ConcatLacks(p.0, "=", c);
    ConcatLacks(p.0 + "=", p.1, c);
  }

  lemma {:induction false} SplitPair(p: (string, string))
    requires Plain(p.0) && Plain(p.1)
    ensures Split(PairText(p), '=') == [p.0, p.1]
  {
    SplitFirst(p.0, '=', p.1);
    SplitOne(p.1, '=');
  }

  lemma {:induction false} PairsReadBack(pairs: seq<(string, string)>, n: nat)
    requires n <= |pairs| && forall p | p in pairs :: Plain(p.0) && Plain(p.1)
    ensures Pairs(PairTexts(pairs), n) == MapOf(pairs[..n])
  {
    if n > 0 {
      PairsReadBack(pairs, n - 1);
      SplitPair(pairs[n - 1]);
      assert pairs[..n][..n - 1] == pairs[..n - 1];
    }
  }

  // ---------------------------------------------------------------- one item

  lemma {:induction false} GroupReadsBack(pairs: seq<(string, string)>)
    requires forall p | p in pairs :: Plain(p.0) && Plain(p.1)
    ensures Conditions(ConditionGroup(Brackets(pairs))) == MapOf(pairs)
    ensures Lacks(Brackets(pairs), ',')
  {
    if pairs == [] {
      SplitOne("", ';');
      SplitOne("", '=');
      assert Pairs([""], 0) == map[];
    } else {
      var texts := PairTexts(pairs);
      forall t | t in texts
        ensures Lacks(t, ',') && Lacks(t, ';') && Lacks(t, '\n')
      {
        var i :| 0 <= i < |texts| && texts[i] == t;
        assert pairs[i] in pairs;
        PairLacks(pairs[i], ',');
        PairLacks(pairs[i], ';');
        PairLacks(pairs[i], '\n');
      }
      var body := Join(texts, ';');
      JoinLacks(texts, ';', ',');
      JoinLacks(texts, ';', '\n');
      JoinNonempty(pairs);
      BracketGroup(body);
      SplitJoin(texts, ';');
      PairsReadBack(pairs, |pairs|);
      assert pairs[..|pairs|] == pairs;
    }
  }

  lemma {:induction false} JoinNonempty(pairs: seq<(string, string)>)
    requires pairs != []
    ensures Join(PairTexts(pairs), ';') != ""
  {
    assert PairTexts(pairs)[0] == PairText(pairs[0]);
    assert |PairText(pairs[0])| >= 1;
  }

  lemma {:induction false} BracketGroup(body: string)
    requires body != "" && Lacks(body, '\n')
    ensures ConditionGroup("<" + body + ">") == body
    ensures Lacks(body, ',') ==> Lacks("<" + body + ">", ',')
  {
    var s := "<" + body + ">";
    assert forall i | 1 <= i <= |body| :: s[i] == body[i - 1];
    assert s[|body| + 1] == '>';
    assert Lacks(s, '\n');
    assert '\n' !in s;
    assert LastClose(s, |s|) == |body| + 1;
    assert s[1..|body| + 1] == body;
  }

  /** The regular expression stops the type at the first character of the action it does not
      allow, whatever follows. */
  lemma {:induction false} MatchStops(obj: string, action: string, rest: string)
    requires obj != "" && Word(obj) && Action(action)
    requires rest != "" ==> !InAction(rest[0])
    ensures FindSubmatch(obj + "." + action + rest)
      == if action == "" then None else Some(Groups(obj + "." + action, ConditionGroup(rest)))
  {
    var s := obj + "." + action + rest;
    var n := |obj|;
    var k := n + 1 + |action|;
    assert forall i | 0 <= i < n :: s[i] == obj[i];
    assert s[n] == '.';
    assert WordEnd(s, 0) == n;
    assert forall i | n + 1 <= i < k :: s[i] == action[i - n - 1];
    assert rest != "" ==> s[k] == rest[0];
    assert ActionEnd(s, n + 1) == k;
    assert s[..k] == obj + "." + action;
    assert s[k..] == rest;
  }

  lemma {:induction false} PrintLacksComma(item: Item)
    requires Documented(item)
    ensures Lacks(Print(item), ',')
  {
    GroupReadsBack(item.pairs);
    ConcatLacks(item.obj, ".", ',');
    ConcatLacks(item.obj + ".", item.action, ',');
    ConcatLacks(item.Typ(), Brackets(item.pairs), ',');
  }

  /** One documented item reads back as itself when its action has no underscore. */
  lemma {:induction false} ItemReadsBack(item: Item)
    requires Documented(item) && '_' !in item.action
    ensures ReadPart(Print(item)) == [Meaning(item)]
  {
    MatchStops(item.obj, item.action, Brackets(item.pairs));
    GroupReadsBack(item.pairs);
  }

  /** With an underscore the type is cut there and the conditions are lost; when nothing comes
      before the underscore the item is skipped altogether. */
  lemma {:induction false} UnderscoreCuts(item: Item, i: nat)
    requires Documented(item) && i < |item.action| && item.action[i] == '_' && Lacks(item.action[..i], '_')
    ensures ReadPart(Print(item)) == if i == 0 then [] else [Sub(item.obj + "." + item.action[..i], map[])]
  {
    var cut, rest := item.action[..i], item.action[i..] + Brackets(item.pairs);
    assert item.action == cut + item.action[i..];
    assert Print(item) == item.obj + "." + cut + rest;
    assert Action(cut) by {
      forall j | 0 <= j < |cut|
        ensures InAction(cut[j])
      {
        assert cut[j] == item.action[j] && cut[j] != '_';
      }
    }
    assert rest[0] == '_';
    MatchStops(item.obj, cut, rest);
    GroupReadsBack([]);
    assert ConditionGroup(rest) == "" == ConditionGroup(Brackets([]));
  }

  /** The documented type `user.add_connection` is subscribed to as `user.add`, unconditionally. */
  lemma {:induction false} AddConnectionIsCut(pairs: seq<(string, string)>)
    requires forall p | p in pairs :: Plain(p.0) && Plain(p.1)
    ensures ReadPart(Print(Item("user", "add_connection", pairs))) == [Sub("user.add", map[])]
  {
    var item := Item("user", "add_connection", pairs);
    AddConnectionIsDocumented(pairs);
    assert item.action[..3] == "add";
    UnderscoreCuts(item, 3);
    ShortTyp();
  }

  lemma {:induction false} AddConnectionIsDocumented(pairs: seq<(string, string)>)
    requires forall p | p in pairs :: Plain(p.0) && Plain(p.1)
    ensures Documented(Item("user", "add_connection", pairs))
  {
  }

  lemma {:induction false} ShortTyp()
    ensures "user" + "." + "add" == "user.add"
  {
  }

  // ---------------------------------------------------------------- any text

  /** Splitting gives one part more than there are separators. */
  lemma {:induction false} SplitCounts(s: string, sep: char, start: nat, i: nat)
    requires start <= i <= |s|
    ensures |SplitFrom(s, sep, start, i)| == 1 + multiset(s[i..])[sep]
    decreases |s| - i
  {
    if i < |s| {
      assert s[i..] == [s[i]] + s[i + 1..];
      SplitCounts(s, sep, if s[i] == sep then i + 1 else start, i + 1);
    }
  }

  /** A part with exactly one '=' sets the key before it to the value after it; any other part is
      skipped. */
  lemma {:induction false} OnePair(conds: seq<string>, n: nat)
    requires n < |conds|
    ensures var cond := conds[n]; var i := Find(cond, '=');
      if multiset(cond)['='] == 1
      then i < |cond| && Pairs(conds, n + 1) == Pairs(conds, n)[cond[..i] := cond[i + 1..]]
      else Pairs(conds, n + 1) == Pairs(conds, n)
  {
    var cond := conds[n];
    SplitCounts(cond, '=', 0, 0);
    assert cond[0..] == cond;
    if multiset(cond)['='] == 1 {
      SplitAtEquals(cond);
    }
  }

  lemma {:induction false} SplitAtEquals(cond: string)
    requires multiset(cond)['='] == 1
    ensures var i := Find(cond, '='); i < |cond| && Split(cond, '=') == [cond[..i], cond[i + 1..]]
  {
    assert '=' in cond;
    var i := Find(cond, '=');
    var key, value := cond[..i], cond[i + 1..];
    assert cond == key + ['='] + value;
    assert multiset(cond) == multiset(key) + multiset{'='} + multiset(value);
    assert '=' !in value;
    SplitFirst(key, '=', value);
    SplitOne(value, '=');
  }

  /** The text starts with a type: a word, a dot and an action. */
  predicate StartsWith(s: string, obj: string, action: string) {
    obj + "." + action <= s && obj != "" && Word(obj) && action != "" && Action(action)
  }

  /** The regular expression finds nothing in a text that starts with no type; in any other it
      finds the longest type at the start, and then the optional condition group. */
  lemma {:induction false} RegexFinds(s: string)
    ensures match FindSubmatch(s)
      case None => forall obj, action :: !StartsWith(s, obj, action)
      case Some(g) =>
        && g.evt <= s && g.cnd == ConditionGroup(s[|g.evt|..])
        && (exists obj, action :: StartsWith(s, obj, action) && g.evt == obj + "." + action)
        && (forall obj, action | StartsWith(s, obj, action) :: obj + "." + action <= g.evt)
  {
    forall obj, action | StartsWith(s, obj, action)
      ensures FindSubmatch(s).Some? && obj + "." + action <= FindSubmatch(s).value.evt
    {
      LongestType(s, obj, action);
    }
    if FindSubmatch(s).Some? {
      var n := WordEnd(s, 0);
      var k := ActionEnd(s, n + 1);
      assert s[..k] == s[..n] + "." + s[n + 1..k];
      assert StartsWith(s, s[..n], s[n + 1..k]);
    }
  }

  lemma {:induction false} LongestType(s: string, obj: string, action: string)
    requires StartsWith(s, obj, action)
    ensures FindSubmatch(s).Some? && obj + "." + action <= FindSubmatch(s).value.evt
  {
    var typ := obj + "." + action;
    var n := |obj|;
    assert s[..|typ|] == typ;
    assert forall j | 0 <= j < |typ| :: s[j] == typ[j];
    assert forall j | 0 <= j < n :: s[j] == obj[j];
    assert s[n] == '.';
    assert WordEnd(s, 0) == n;
    forall j | n + 1 <= j < |typ|
      ensures ActionChar(s[j])
    {
      assert s[j] == action[j - n - 1];
    }
    var k := ActionEnd(s, n + 1);
    assert k >= |typ|;
    assert typ <= s[..k];
  }

  /** The condition group: between '<' at the front and the last '>' of the line, if there is
      something between them. */
  lemma {:induction false} GroupFinds(s: string)
    ensures var cnd := ConditionGroup(s);
      if cnd == "" then forall body :: body != "" && Lacks(body, '\n') ==> !("<" + body + ">" <= s)
      else "<" + cnd + ">" <= s && Lacks(cnd, '\n')
           && forall k | |cnd| + 1 < k < Find(s, '\n') :: s[k] != '>'
  {
    var cnd := ConditionGroup(s);
    var n := Find(s, '\n');
    if cnd != "" {
      var j := LastClose(s, n);
      assert s[..j + 1] == "<" + cnd + ">";
    } else {
      forall body | body != "" && Lacks(body, '\n') && "<" + body + ">" <= s
        ensures false
      {
        GroupIsFound(s, body);
      }
    }
  }

  lemma {:induction false} GroupIsFound(s: string, body: string)
    requires body != "" && Lacks(body, '\n') && "<" + body + ">" <= s
    ensures ConditionGroup(s) != ""
  {
    var t := "<" + body + ">";
    assert s[..|t|] == t;
    assert forall j | 0 <= j < |t| :: s[j] == t[j];
    forall j | 0 <= j < |t|
      ensures s[j] != '\n'
    {
      assert 1 <= j <= |body| ==> s[j] == body[j - 1];
    }
    assert Find(s, '\n') >= |t|;
    assert s[|t| - 1] == '>';
    assert LastClose(s, Find(s, '\n')) >= |t| - 1;
  }

  // ---------------------------------------------------------------- lists

  lemma {:induction false} BodySplits(items: seq<Item>)
    requires items != [] && forall item | item in items :: Documented(item)
    ensures Split(Body(items), ',') == Prints(items)
  {
    forall p | p in Prints(items)
      ensures Lacks(p, ',')
    {
      var i :| 0 <= i < |items| && Prints(items)[i] == p;
      assert items[i] in items;
      PrintLacksComma(items[i]);
    }
    SplitJoin(Prints(items), ',');
  }

  lemma {:induction false} ReadBody(text: string)
    ensures Read("@" + text) == var parts := Split(text, ','); Flat(Reads(parts), |parts|)
  {
    assert ("@" + text)[1..] == text;
  }

  lemma {:induction false} ReadNothing()
    ensures Flat(Reads([""]), 1) == []
  {
    assert Flat(Reads([""]), 0) == [];
    assert ReadPart("") == [];
  }

  /** A printed list is split back into its printed items. */
  lemma {:induction false} ReadPrinted(items: seq<Item>)
    requires forall item | item in items :: Documented(item)
    ensures Read(PrintAll(items)) == Flat(Reads(Prints(items)), |items|)
  {
    assert PrintAll(items) == "@" + Body(items);
    ReadBody(Body(items));
    if items == [] {
      SplitOne("", ',');
      ReadNothing();
    } else {
      BodySplits(items);
    }
  }

  lemma {:induction false} ReadsPrinted(items: seq<Item>, j: nat)
    requires j < |items| && Documented(items[j]) && '_' !in items[j].action
    ensures Reads(Prints(items))[j] == [Meanings(items)[j]]
  {
    ItemReadsBack(items[j]);
  }

  lemma {:induction false} FlatSingles(lists: seq<seq<Sub>>, subs: seq<Sub>, n: nat)
    requires n <= |lists| == |subs| && forall j | 0 <= j < n :: lists[j] == [subs[j]]
    ensures Flat(lists, n) == subs[..n]
  {
    if n > 0 {
      FlatSingles(lists, subs, n - 1);
    }
  }

  /** Lists of at most one element, as many as the wanted elements: if the n-th is the first not to
      be the n-th wanted one, the whole is not the wanted list. */
  lemma {:induction false} FlatWrong(lists: seq<seq<Sub>>, subs: seq<Sub>, n: nat)
    requires n < |lists| == |subs|
    requires forall j | 0 <= j < n :: lists[j] == [subs[j]]
    requires forall j | 0 <= j < |lists| :: |lists[j]| <= 1
    requires lists[n] != [subs[n]]
    ensures Flat(lists, |lists|) != subs
  {
    FlatSingles(lists, subs, n);
    FlatGrows(lists, n + 1, |lists|);
    if lists[n] != [] {
      assert Flat(lists, n + 1)[n] == lists[n][0];
    }
  }

  lemma {:induction false} BadItemDiffers(items: seq<Item>, n: nat, u: nat)
    requires forall item | item in items :: Documented(item)
    requires n < |items| && forall j | 0 <= j < n :: '_' !in items[j].action
    requires u < |items[n].action| && items[n].action[u] == '_' && Lacks(items[n].action[..u], '_')
    ensures Flat(Reads(Prints(items)), |items|) != Meanings(items)
  {
    forall j | 0 <= j < n
      ensures Reads(Prints(items))[j] == [Meanings(items)[j]]
    {
      ReadsPrinted(items, j);
    }
    BadRead(items, n, u);
    FlatWrong(Reads(Prints(items)), Meanings(items), n);
  }

  lemma {:induction false} BadRead(items: seq<Item>, n: nat, u: nat)
    requires n < |items| && Documented(items[n])
    requires u < |items[n].action| && items[n].action[u] == '_' && Lacks(items[n].action[..u], '_')
    ensures Reads(Prints(items))[n] != [Meanings(items)[n]]
  {
    UnderscoreCuts(items[n], u);
    CutTypDiffers(items[n], u);
  }

  lemma {:induction false} CutTypDiffers(item: Item, u: nat)
    requires u < |item.action|
    ensures item.obj + "." + item.action[..u] != item.Typ()
  {
    assert |item.obj + "." + item.action[..u]| < |item.Typ()|;
  }

  /** A list printed in the documented syntax is read back as the same list of types and condition
      maps exactly when no action has an underscore, which the regular expression leaves out. */
  lemma {:induction false} InlineReadsBackIff(items: seq<Item>)
    requires forall item | item in items :: Documented(item)
    ensures Read(PrintAll(items)) == Meanings(items) <==> forall item | item in items :: '_' !in item.action
  {
    ReadPrinted(items);
    if forall item | item in items :: '_' !in item.action {
      forall j | 0 <= j < |items|
        ensures Reads(Prints(items))[j] == [Meanings(items)[j]]
      {
        assert items[j] in items;
        ReadsPrinted(items, j);
      }
      FlatSingles(Reads(Prints(items)), Meanings(items), |items|);
    } else {
      var n := FirstBad(items);
      var u := Find(items[n].action, '_');
      BadItemDiffers(items, n, u);
    }
  }

  lemma {:induction false} FirstBad(items: seq<Item>) returns (n: nat)
    requires exists item :: item in items && '_' in item.action
    ensures n < |items| && '_' in items[n].action && forall j | 0 <= j < n :: '_' !in items[j].action
  {
    n := 0;
    while n < |items| && '_' !in items[n].action
      invariant 0 <= n <= |items|
      invariant forall j | 0 <= j < n :: '_' !in items[j].action
    {
      n := n + 1;
    }
  }

  function At(m: map<string, string>, k: string): string {
    if k in m then m[k] else ""
  }

  /** When the pairs list a map's entries, each key once, in any order, the map is what is read. */
  lemma {:induction false} PairsOfMap(pairs: seq<(string, string)>, m: map<string, string>)
    requires forall i, j | 0 <= i < j < |pairs| :: pairs[i].0 != pairs[j].0
    requires forall k, v :: (k, v) in pairs <==> k in m && m[k] == v
    ensures MapOf(pairs) == m
  {
    if pairs == [] {
      forall k
        ensures k !in m
      {
        assert (k, At(m, k)) !in pairs;
      }
    } else {
      var before, p := pairs[..|pairs| - 1], pairs[|pairs| - 1];
      var m' := m - {p.0};
      assert p in pairs && (p.0, p.1) == p;
      forall k, v
        ensures (k, v) in before <==> k in m' && m'[k] == v
      {
        if (k, v) in before {
          var i :| 0 <= i < |before| && before[i] == (k, v);
          assert pairs[i].0 != p.0;
          assert (k, v) in pairs;
        }
        if k in m' && m'[k] == v {
          assert (k, v) in pairs;
          var i :| 0 <= i < |pairs| && pairs[i] == (k, v);
          assert before[i] == (k, v);
        }
      }
      PairsOfMap(before, m');
      assert m == m'[p.0 := p.1];
    }
  }
}
