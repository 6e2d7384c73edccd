/**
 * The keyword detection and highlighting of `SmsListScreen`: a message is risky when it
 * contains one of the listed keywords, and a risky message is split into plain runs and
 * highlighted runs, where the highlighted runs are the matches of the keywords joined into
 * one regular-expression alternation.
 */
module SmsHighlight {
  import opened Wrappers
  import opened Text

  /** The characters with a special meaning in a regular expression (all of them ASCII). */
  predicate IsMetaChar(c: char) {
    c as int < 0x80 &&
    (|| c == '\\' || c == '^' || c == '$' || c == '.' || c == '|' || c == '?' || c == '*'
     || c == '+' || c == '(' || c == ')' || c == '[' || c == ']' || c == '{' || c == '}')
  }

  /** No character of `k` from index `j` on is a metacharacter. */
  function NoMetaFrom(k: string, j: nat): bool
    requires j <= |k|
    decreases |k| - j
  {
    j == |k| || (!IsMetaChar(k[j]) && NoMetaFrom(k, j + 1))
  }

  /**
   * A keyword that an alternation matches literally and never as the empty string. Every
   * string of `phishingKeywords` is one, checked keyword by keyword where the list is built.
   */
  type Keyword = k: string | |k| > 0 && NoMetaFrom(k, 0) witness "a"

  /** The character-by-character check means what it should: no metacharacter anywhere. */
  lemma {:induction false} NoMetaFromMeansLiteral(k: string, j: nat)
    requires j <= |k|
    decreases |k| - j
    ensures NoMetaFrom(k, j) <==> forall i | j <= i < |k| :: !IsMetaChar(k[i])
  {
    if j < |k| {
      NoMetaFromMeansLiteral(k, j + 1);
    }
  }

  /** `phishingKeywords`, one constant per source line, in list order. */
  const Line37: seq<Keyword> := ["안전계좌", "보안계좌", "현금 전달", "대포통장", "계좌 이체", "송금 요청"]
  const Line38: seq<Keyword> := ["개인정보 확인", "비밀번호 입력", "인증번호 전송", "송금", "이체", "입금", "구속", "형사처벌", "압류", "고소", "체포"]
  const Line39: seq<Keyword> := ["영장", "계좌번호", "비밀번호", "인증번호", "OTP", "보안카드", "검찰", "검찰청", "경찰", "경찰청", "금융감독원", "금감원"]
  const Line40: seq<Keyword> := ["법원", "국세청", "관세청", "우체국", "은행", "카드사", "통신사", "긴급", "즉시", "24시간 이내", "오늘 중", "피의자"]
  const Line41: seq<Keyword> := ["명의 도용", "개인정보 유출", "사건 번호", "출석요구서", "소환장", "전화 주세요", "연락 바랍니다", "클릭", "링크"]
  const Line42: seq<Keyword> := ["앱 설치", "프로그램 설치", "대출", "저금리", "신용", "한도", "승인", "연체", "채무", "미납", "미수", "정지", "해지"]
  const Line43: seq<Keyword> := ["택배", "배송", "상품권", "쿠폰", "당첨", "경품", "무료", "계좌", "벌금", "확인요망", "확인하세요", "조회", "인증"]

  /** The whole list; its order decides which keyword wins at a position. */
  const PhishingKeywords: seq<Keyword> := Line37 + Line38 + Line39 + Line40 + Line41 + Line42 + Line43

  /** `kws.any { content.contains(it) }`, scanning the list from `j` on. */
  function AnyContained(content: string, kws: seq<Keyword>, j: nat): (r: bool)
    requires j <= |kws|
    decreases |kws| - j
    ensures r <==> exists i | j <= i < |kws| :: Contains(content, kws[i])
  {
    if j == |kws| then false
    else Contains(content, kws[j]) || AnyContained(content, kws, j + 1)
  }

  /** `isRisky` of an SMS: some listed keyword occurs in its content. */
  function IsRisky(content: string): (r: bool)
    ensures r <==> exists i | 0 <= i < |PhishingKeywords| :: Contains(content, PhishingKeywords[i])
  {
    AnyContained(content, PhishingKeywords, 0)
  }

  /**
   * The index of the first keyword, from `j` on in list order, that occurs at position `p`:
   * an alternation tries its branches in order and takes the first that matches.
   */
  function FirstAt(t: string, kws: seq<Keyword>, p: nat, j: nat): (r: Option<nat>)
    requires j <= |kws|
    decreases |kws| - j
    ensures r.Some? ==> j <= r.value < |kws| && OccursAt(t, kws[r.value], p)
    ensures r.Some? ==> forall l | j <= l < r.value :: !OccursAt(t, kws[l], p)
    ensures r.None? ==> forall l | j <= l < |kws| :: !OccursAt(t, kws[l], p)
  {
    if j == |kws| then None
    else if OccursAt(t, kws[j], p) then Some(j)
    else FirstAt(t, kws, p, j + 1)
  }

  /** What the alternation of `kws` matches when it is tried at position `p` of `t`. */
  function AlternationAt(t: string, kws: seq<Keyword>, p: nat): (r: Option<Keyword>)
    ensures r.Some? ==> OccursAt(t, r.value, p) && r.value in kws
    ensures r.None? <==> forall l | 0 <= l < |kws| :: !OccursAt(t, kws[l], p)
  {
    match FirstAt(t, kws, p, 0)
    case Some(i) => Some(kws[i])
    case None => None
  }

  /** One match of `findAll`: where it starts and the keyword it matched. */
  datatype Match = Match(start: nat, value: Keyword)

  /** The index just past a match, `range.last + 1`. */
  function End(m: Match): nat {
    m.start + |m.value|
  }

  /** The leftmost match at or after `from`. */
  function NextMatch(t: string, kws: seq<Keyword>, from: nat): (r: Option<Match>)
    requires from <= |t|
    decreases |t| - from
    ensures r.Some? ==> from <= r.value.start <= |t| && AlternationAt(t, kws, r.value.start) == Some(r.value.value)
    ensures r.Some? ==> forall q | from <= q < r.value.start :: AlternationAt(t, kws, q).None?
    ensures r.None? ==> forall q | from <= q <= |t| :: AlternationAt(t, kws, q).None?
  {
    match AlternationAt(t, kws, from)
    case Some(v) => Some(Match(from, v))
    case None =>
      if from == |t| then None
      else
        var r := NextMatch(t, kws, from + 1);
        assert r.Some? ==> forall q | from < q < r.value.start :: AlternationAt(t, kws, q).None?;
        r
  }

  /**
   * `regex.findAll(text)` from `from` on: the leftmost match, then the search goes on from its
   * end. Keywords are never empty, so every match moves the search forward.
   */
  function FindAll(t: string, kws: seq<Keyword>, from: nat): (ms: seq<Match>)
    requires from <= |t|
    decreases |t| - from
    ensures forall i | 0 <= i < |ms| :: from <= ms[i].start && End(ms[i]) <= |t|
    ensures forall i | 0 <= i < |ms| - 1 :: End(ms[i]) <= ms[i + 1].start
  {
    match NextMatch(t, kws, from)
    case None => []
    case Some(m) =>
      assert OccursAt(t, m.value, m.start) && |m.value| > 0;
      [m] + FindAll(t, kws, End(m))
  }

  /** Every match of `FindAll` is what the alternation matches at its start. */
  lemma {:induction false} FindAllMatches(t: string, kws: seq<Keyword>, from: nat)
    requires from <= |t|
    decreases |t| - from
    ensures forall i | 0 <= i < |FindAll(t, kws, from)| ::
      AlternationAt(t, kws, FindAll(t, kws, from)[i].start) == Some(FindAll(t, kws, from)[i].value)
  {
    match NextMatch(t, kws, from)
    case None =>
    case Some(m) =>
      FindAllMatches(t, kws, End(m));
      var rest := FindAll(t, kws, End(m));
      var ms := [m] + rest;
      assert FindAll(t, kws, from) == ms;
      forall i | 0 < i < |ms|
        ensures AlternationAt(t, kws, ms[i].start) == Some(ms[i].value)
      {
        assert ms[i] == rest[i - 1];
      }
  }

  /** Between two consecutive matches of `FindAll` the alternation matches nowhere. */
  lemma {:induction false} FindAllGaps(t: string, kws: seq<Keyword>, from: nat)
    requires from <= |t|
    decreases |t| - from
    ensures forall i, q | 0 < i < |FindAll(t, kws, from)| &&
      End(FindAll(t, kws, from)[i - 1]) <= q < FindAll(t, kws, from)[i].start :: AlternationAt(t, kws, q).None?
  {
    match NextMatch(t, kws, from)
    case None =>
    case Some(m) =>
      FindAllGaps(t, kws, End(m));
      var rest := FindAll(t, kws, End(m));
      var ms := [m] + rest;
      assert FindAll(t, kws, from) == ms;
      forall i, q | 0 < i < |ms| && End(ms[i - 1]) <= q < ms[i].start
        ensures AlternationAt(t, kws, q).None?
      {
        if i > 1 {
          assert ms[i - 1] == rest[i - 2] && ms[i] == rest[i - 1];
        } else {
          assert ms[1] == rest[0];
          assert rest[0] == NextMatch(t, kws, End(m)).value;
        }
      }
  }

  /** After the last match of `FindAll` the alternation matches nowhere. */
  lemma {:induction false} FindAllTail(t: string, kws: seq<Keyword>, from: nat)
    requires from <= |t|
    decreases |t| - from
    ensures var ms := FindAll(t, kws, from);
      ms != [] ==> forall q | End(ms[|ms| - 1]) <= q <= |t| :: AlternationAt(t, kws, q).None?
  {
    match NextMatch(t, kws, from)
    case None =>
    case Some(m) =>
      var rest := FindAll(t, kws, End(m));
      assert FindAll(t, kws, from) == [m] + rest;
      if rest == [] {
        assert NextMatch(t, kws, End(m)).None?;
      } else {
        FindAllTail(t, kws, End(m));
        assert ([m] + rest)[|rest|] == rest[|rest| - 1];
      }
  }

  /**
   * Every match is what the alternation matches at its start, the search skips no position
   * where the alternation would match (before the first match, between two, or after the
   * last), and it finds nothing only where nothing matches.
   */
  lemma FindAllLeftmost(t: string, kws: seq<Keyword>, from: nat)
    requires from <= |t|
    ensures forall i | 0 <= i < |FindAll(t, kws, from)| ::
      AlternationAt(t, kws, FindAll(t, kws, from)[i].start) == Some(FindAll(t, kws, from)[i].value)
    ensures FindAll(t, kws, from) != [] ==>
      forall q | from <= q < FindAll(t, kws, from)[0].start :: AlternationAt(t, kws, q).None?
    ensures forall i, q | 0 < i < |FindAll(t, kws, from)| &&
      End(FindAll(t, kws, from)[i - 1]) <= q < FindAll(t, kws, from)[i].start :: AlternationAt(t, kws, q).None?
    ensures FindAll(t, kws, from) != [] ==>
      forall q | End(FindAll(t, kws, from)[|FindAll(t, kws, from)| - 1]) <= q <= |t| :: AlternationAt(t, kws, q).None?
    ensures FindAll(t, kws, from) == [] <==> forall q | from <= q <= |t| :: AlternationAt(t, kws, q).None?
  {
    FindAllMatches(t, kws, from);
    FindAllGaps(t, kws, from);
    FindAllTail(t, kws, from);
    match NextMatch(t, kws, from)
    case None =>
    case Some(m) =>
      assert FindAll(t, kws, from)[0] == m;
      assert AlternationAt(t, kws, m.start).Some?;
  }

  /** A run of the annotated string: plain text, or text in the highlight colour. */
  datatype Segment = Plain(text: string) | Marked(text: string)

  /** The text the annotated string shows, highlighting aside. */
  function Flatten(segs: seq<Segment>): string
    decreases |segs|
  {
    if segs == [] then [] else Flatten(segs[..|segs| - 1]) + segs[|segs| - 1].text
  }

  /** The highlighted runs, in order. */
  function MarkedTexts(segs: seq<Segment>): seq<string>
    decreases |segs|
  {
    if segs == [] then []
    else
      var last := segs[|segs| - 1];
      MarkedTexts(segs[..|segs| - 1]) + (if last.Marked? then [last.text] else [])
  }

  /** The matched texts, in order. */
  function Values(ms: seq<Match>): seq<string>
    decreases |ms|
  {
    if ms == [] then [] else Values(ms[..|ms| - 1]) + [ms[|ms| - 1].value]
  }

  lemma FlattenSnoc(segs: seq<Segment>, s: Segment)
    ensures Flatten(segs + [s]) == Flatten(segs) + s.text
    ensures MarkedTexts(segs + [s]) == MarkedTexts(segs) + (if s.Marked? then [s.text] else [])
  {
    assert (segs + [s])[..|segs|] == segs;
  }

  /** Emitting the plain run up to a match and then the match extends the rendered prefix. */
  lemma AnnotateStep(t: string, segs: seq<Segment>, last: nat, m: Match)
    requires last <= m.start && OccursAt(t, m.value, m.start)
    requires Flatten(segs) == t[..last]
    ensures Flatten(segs + [Plain(t[last..m.start]), Marked(m.value)]) == t[..End(m)]
    ensures MarkedTexts(segs + [Plain(t[last..m.start]), Marked(m.value)]) == MarkedTexts(segs) + [m.value]
  {
    var plain := Plain(t[last..m.start]);
    FlattenSnoc(segs, plain);
    FlattenSnoc(segs + [plain], Marked(m.value));
    assert segs + [plain, Marked(m.value)] == segs + [plain] + [Marked(m.value)];
    assert t[..End(m)] == t[..last] + t[last..m.start] + t[m.start..End(m)];
  }

  /** Where the plain run before match `j` starts: the end of the previous match, or 0. */
  function RunStart(ms: seq<Match>, j: nat): nat
    requires j <= |ms|
  {
    if j == 0 then 0 else End(ms[j - 1])
  }

  /** Match `j` is placed in `segs`: the plain run before it at `2 * j`, the match highlighted right after. */
  predicate PlacedAt(t: string, ms: seq<Match>, segs: seq<Segment>, j: nat)
    requires j < |ms| && 2 * j + 1 < |segs|
  {
    RunStart(ms, j) <= ms[j].start <= |t| &&
    segs[2 * j] == Plain(t[RunStart(ms, j)..ms[j].start]) && segs[2 * j + 1] == Marked(ms[j].value)
  }

  /** The first `n` matches are laid out in `segs`, each with its plain run before it. */
  predicate LaidOut(t: string, ms: seq<Match>, segs: seq<Segment>, n: nat)
  {
    n <= |ms| && 2 * n <= |segs| && forall j | 0 <= j < n :: PlacedAt(t, ms, segs, j)
  }

  /** Appending to the segments keeps the layout of the matches already placed. */
  lemma LaidOutAppend(t: string, ms: seq<Match>, segs: seq<Segment>, extra: seq<Segment>, n: nat)
    requires LaidOut(t, ms, segs, n)
    ensures LaidOut(t, ms, segs + extra, n)
  {
    forall j | 0 <= j < n
      ensures PlacedAt(t, ms, segs + extra, j)
    {
      assert PlacedAt(t, ms, segs, j);
      assert (segs + extra)[2 * j] == segs[2 * j] && (segs + extra)[2 * j + 1] == segs[2 * j + 1];
    }
  }

  /** Placing the plain run and match `n` right after the first `n` extends the layout by one. */
  lemma LaidOutNext(t: string, ms: seq<Match>, segs: seq<Segment>, n: nat)
    requires LaidOut(t, ms, segs, n) && |segs| == 2 * n && n < |ms|
    requires RunStart(ms, n) <= ms[n].start <= |t|
    ensures LaidOut(t, ms, segs + [Plain(t[RunStart(ms, n)..ms[n].start]), Marked(ms[n].value)], n + 1)
  {
    var extra := [Plain(t[RunStart(ms, n)..ms[n].start]), Marked(ms[n].value)];
    LaidOutAppend(t, ms, segs, extra, n);
    assert (segs + extra)[2 * n] == extra[0] && (segs + extra)[2 * n + 1] == extra[1];
    assert PlacedAt(t, ms, segs + extra, n);
  }

  /**
   * The `buildAnnotatedString` loop: before each match the plain text since the previous one
   * (possibly empty), then the match highlighted; after the last match the rest, if any.
   */
  method Annotate(t: string, ms: seq<Match>) returns (segs: seq<Segment>)
    requires forall i | 0 <= i < |ms| :: OccursAt(t, ms[i].value, ms[i].start)
    requires forall i | 0 <= i < |ms| - 1 :: End(ms[i]) <= ms[i + 1].start
    ensures Flatten(segs) == t
    ensures MarkedTexts(segs) == Values(ms)
    ensures LaidOut(t, ms, segs, |ms|)
    ensures RunStart(ms, |ms|) <= |t|
    ensures |segs| == 2 * |ms| + (if RunStart(ms, |ms|) < |t| then 1 else 0)
    ensures RunStart(ms, |ms|) < |t| ==> segs[2 * |ms|] == Plain(t[RunStart(ms, |ms|)..])
  {
    segs := [];
    var last := 0;
    for i := 0 to |ms|
      invariant last == RunStart(ms, i) <= |t|
      invariant |segs| == 2 * i
      invariant LaidOut(t, ms, segs, i)
      invariant Flatten(segs) == t[..last]
      invariant MarkedTexts(segs) == Values(ms[..i])
    {
      AnnotateStep(t, segs, last, ms[i]);
      LaidOutNext(t, ms, segs, i);
      assert ms[..i + 1][..i] == ms[..i];
      segs := segs + [Plain(t[last..ms[i].start]), Marked(ms[i].value)];
      last := End(ms[i]);
    }
    assert ms[..|ms|] == ms;
    if last < |t| {
      FlattenSnoc(segs, Plain(t[last..]));
      LaidOutAppend(t, ms, segs, [Plain(t[last..])], |ms|);
      assert t == t[..last] + t[last..];
      segs := segs + [Plain(t[last..])];
    }
  }

  /**
   * `HighlightedText`: a message not flagged as risky is shown as it is; a flagged one is
   * annotated with every match of the keyword alternation.
   */
  method HighlightedText(text: string, isRisky: bool) returns (segs: seq<Segment>)
    ensures Flatten(segs) == text
    ensures !isRisky ==> segs == [Plain(text)]
    ensures isRisky ==> MarkedTexts(segs) == Values(FindAll(text, PhishingKeywords, 0))
    ensures forall i | 0 <= i < |MarkedTexts(segs)| :: MarkedTexts(segs)[i] in PhishingKeywords
  {
    if !isRisky {
      segs := [Plain(text)];
      FlattenSnoc([], Plain(text));
      return;
    }
    var ms := FindAll(text, PhishingKeywords, 0);
    FindAllLeftmost(text, PhishingKeywords, 0);
    segs := Annotate(text, ms);
    ValuesInKeywords(text, ms);
  }

  /** Every matched text is one of the keywords. */
  lemma {:induction false} ValuesInKeywords(t: string, ms: seq<Match>)
    requires forall i | 0 <= i < |ms| :: AlternationAt(t, PhishingKeywords, ms[i].start) == Some(ms[i].value)
    ensures forall i | 0 <= i < |Values(ms)| :: Values(ms)[i] in PhishingKeywords
    decreases |ms|
  {
    if ms != [] {
      ValuesInKeywords(t, ms[..|ms| - 1]);
      assert Values(ms) == Values(ms[..|ms| - 1]) + [ms[|ms| - 1].value];
    }
  }

  /**
   * A message is risky exactly when the alternation finds something in it, so a risky
   * message always shows at least one highlighted run.
   */
  lemma RiskyIffMatched(text: string)
    ensures IsRisky(text) <==> FindAll(text, PhishingKeywords, 0) != []
  {
    var ms := FindAll(text, PhishingKeywords, 0);
    FindAllLeftmost(text, PhishingKeywords, 0);
    if IsRisky(text) {
      var i :| 0 <= i < |PhishingKeywords| && Contains(text, PhishingKeywords[i]);
      var p :| 0 <= p <= |text| && OccursAt(text, PhishingKeywords[i], p);
      assert AlternationAt(text, PhishingKeywords, p).Some?;
    }
    if ms != [] {
      var v := ms[0].value;
      assert OccursAt(text, v, ms[0].start);
      var i :| 0 <= i < |PhishingKeywords| && PhishingKeywords[i] == v;
      assert Contains(text, PhishingKeywords[i]);
    }
  }

  /**
   * At one position the earliest-listed keyword wins, not the longest: wherever "검찰청" occurs,
   * "검찰", listed just before it, occurs too, so the alternation never picks "검찰청".
   */
  lemma EarlierListedKeywordWins(t: string, p: nat)
    requires OccursAt(t, "검찰청", p)
    ensures PhishingKeywords[23] == "검찰" && PhishingKeywords[24] == "검찰청"
    ensures FirstAt(t, PhishingKeywords, p, 0).Some? && FirstAt(t, PhishingKeywords, p, 0).value <= 23
  {
    assert PhishingKeywords[23] == Line39[6] == "검찰";
    assert PhishingKeywords[24] == Line39[7] == "검찰청";
    assert t[p..p + 2] == t[p..p + 3][..2];
    assert OccursAt(t, PhishingKeywords[23], p);
  }
}
