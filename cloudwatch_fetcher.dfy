/** The CloudWatch side of training-data collection: the request sent for one metric, the
    shaping of the returned datapoints into time-ordered records, the naming of each
    metric's column, and the walk over the default metrics of every namespace.

    The boto3 client is not modelled: what `get_metric_statistics` answered (or that it
    raised) is an input, and so is the current time. */
module CloudWatchFetcher {

  import opened Wrappers
  import RetrainScheduler
  import Lists

  // ---------------------------------------------------------------- characters

  predicate IsUpper(c: char) {
    'A' <= c <= 'Z'
  }

  predicate IsLowerOrDigit(c: char) {
    'a' <= c <= 'z' || '0' <= c <= '9'
  }

  /** `str.lower()` on one character, for ASCII letters. */
  function Lower(c: char): (l: char)
    ensures !IsUpper(l)
    ensures !IsUpper(c) ==> l == c
    ensures c != '_' ==> l != '_'
  {
    if IsUpper(c) then (c as int + 32) as char else c
  }

  function LowerAll(s: string): (r: string)
    ensures |r| == |s|
  {
    if s == [] then [] else [Lower(s[0])] + LowerAll(s[1..])
  }

  function CountUpper(s: string): nat {
    if s == [] then 0 else (if IsUpper(s[0]) then 1 else 0) + CountUpper(s[1..])
  }

  predicate NoUpper(s: string) {
    forall i :: 0 <= i < |s| ==> !IsUpper(s[i])
  }

  function RemoveUnderscores(s: string): string {
    if s == [] then [] else (if s[0] == '_' then [] else [s[0]]) + RemoveUnderscores(s[1..])
  }

  lemma {:induction false} RemoveUnderscoresAppend(a: string, b: string)
    ensures RemoveUnderscores(a + b) == RemoveUnderscores(a) + RemoveUnderscores(b)
  {
    if a == [] {
      assert a + b == b;
    } else {
      var head := if a[0] == '_' then [] else [a[0]];
      assert (a + b)[0] == a[0];
      assert (a + b)[1..] == a[1..] + b;
      RemoveUnderscoresAppend(a[1..], b);
      assert RemoveUnderscores(a + b) == head + RemoveUnderscores(a[1..] + b);
      assert RemoveUnderscores(a) == head + RemoveUnderscores(a[1..]);
    }
  }

  // ---------------------------------------------------------------- _camel_to_snake

  /** One character after the first: a capital gets a `_` in front, and everything is lowered. */
  function SnakePiece(c: char): string {
    if IsUpper(c) then ['_', Lower(c)] else [Lower(c)]
  }

  function SnakeTail(t: string): string {
    if t == [] then [] else SnakePiece(t[0]) + SnakeTail(t[1..])
  }

  /** `re.sub(r"(?<!^)(?=[A-Z])", "_", name).lower()`: an underscore before every ASCII
      capital except at index 0, then lower case. */
  function CamelToSnake(name: string): string {
    if name == [] then [] else [Lower(name[0])] + SnakeTail(name[1..])
  }

  lemma {:induction false} SnakeTailLength(t: string)
    ensures |SnakeTail(t)| == |t| + CountUpper(t)
  {
    if t != [] {
      SnakeTailLength(t[1..]);
    }
  }

  /** One underscore is added per capital after the first character. */
  lemma CamelToSnakeLength(name: string)
    requires name != []
    ensures |CamelToSnake(name)| == |name| + CountUpper(name[1..])
  {
    SnakeTailLength(name[1..]);
  }

  lemma {:induction false} SnakeTailNoUpper(t: string)
    ensures NoUpper(SnakeTail(t))
  {
    if t != [] {
      SnakeTailNoUpper(t[1..]);
      var p := SnakePiece(t[0]);
      assert NoUpper(p);
      assert SnakeTail(t) == p + SnakeTail(t[1..]);
    }
  }

  /** The result holds no capital letter. */
  lemma CamelToSnakeNoUpper(name: string)
    ensures NoUpper(CamelToSnake(name))
  {
    if name != [] {
      SnakeTailNoUpper(name[1..]);
      assert CamelToSnake(name) == [Lower(name[0])] + SnakeTail(name[1..]);
    }
  }

  lemma NoUpperTail(t: string)
    requires NoUpper(t) && t != []
    ensures NoUpper(t[1..]) && !IsUpper(t[0])
  {
    forall i | 0 <= i < |t[1..]|
      ensures !IsUpper(t[1..][i])
    {
      assert t[1..][i] == t[i + 1];
    }
  }

  lemma {:induction false} SnakeTailFixed(t: string)
    requires NoUpper(t)
    ensures SnakeTail(t) == t
  {
    if t != [] {
      NoUpperTail(t);
      SnakeTailFixed(t[1..]);
      assert SnakePiece(t[0]) == [t[0]];
      Lists.ConsSplit(t);
    }
  }

  /** Converting twice is converting once. */
  lemma CamelToSnakeIdempotent(name: string)
    ensures CamelToSnake(CamelToSnake(name)) == CamelToSnake(name)
  {
    var s := CamelToSnake(name);
    CamelToSnakeNoUpper(name);
    if s != [] {
      NoUpperTail(s);
      SnakeTailFixed(s[1..]);
      assert Lower(s[0]) == s[0];
      Lists.ConsSplit(s);
    }
  }

  lemma {:induction false} SnakeTailUnderscores(t: string)
    requires '_' !in t
    ensures RemoveUnderscores(SnakeTail(t)) == LowerAll(t)
  {
    if t != [] {
      assert t[0] in t;
      assert forall c :: c in t[1..] ==> c in t;
      SnakeTailUnderscores(t[1..]);
      RemoveUnderscoresAppend(SnakePiece(t[0]), SnakeTail(t[1..]));
      assert RemoveUnderscores(SnakePiece(t[0])) == [Lower(t[0])] by {
        if IsUpper(t[0]) {
          assert SnakePiece(t[0])[1..] == [Lower(t[0])];
        }
      }
    }
  }

  /** For a name without underscores, deleting the inserted underscores gives the name in
      lower case: nothing but underscores is added. */
  lemma CamelToSnakeUnderscores(name: string)
    requires '_' !in name
    ensures RemoveUnderscores(CamelToSnake(name)) == LowerAll(name)
  {
    if name != [] {
      assert forall c :: c in name[1..] ==> c in name;
      SnakeTailUnderscores(name[1..]);
      assert name[0] in name;
      RemoveUnderscoresAppend([Lower(name[0])], SnakeTail(name[1..]));
    }
  }

  lemma SnakeTailCons(c: char, t: string)
    ensures SnakeTail([c] + t) == SnakePiece(c) + SnakeTail(t)
  {
    assert ([c] + t)[0] == c;
    assert ([c] + t)[1..] == t;
  }

  /** A capital in front of a converted tail adds its underscore and its lower case. */
  lemma SnakeTailUpper(c: char, t: string, r: string)
    requires IsUpper(c) && SnakeTail(t) == r
    ensures SnakeTail([c] + t) == ['_', Lower(c)] + r
  {
    SnakeTailCons(c, t);
  }

  predicate AllUpper(s: string) {
    forall i :: 0 <= i < |s| ==> IsUpper(s[i])
  }

  lemma AllUpperTail(s: string)
    requires AllUpper(s) && s != []
    ensures IsUpper(s[0]) && AllUpper(s[1..])
  {
    forall i | 0 <= i < |s[1..]|
      ensures IsUpper(s[1..][i])
    {
      assert s[1..][i] == s[i + 1];
    }
  }

  /** A run of capitals in front of a word without capitals: the word is kept as it is. */
  lemma {:induction false} SnakeTailCapitals(caps: string, w: string)
    requires AllUpper(caps) && NoUpper(w)
    ensures SnakeTail(caps + w) == SnakeTail(caps) + w
  {
    if caps == [] {
      SnakeTailFixed(w);
      assert caps + w == w;
    } else {
      AllUpperTail(caps);
      SnakeTailCapitals(caps[1..], w);
      assert (caps + w)[0] == caps[0] && (caps + w)[1..] == caps[1..] + w;
      assert SnakePiece(caps[0]) + (SnakeTail(caps[1..]) + w) == (SnakePiece(caps[0]) + SnakeTail(caps[1..])) + w;
    }
  }

  lemma {:induction false} SnakeTailCapitalsLength(caps: string)
    requires AllUpper(caps)
    ensures |SnakeTail(caps)| == 2 * |caps|
  {
    if caps != [] {
      AllUpperTail(caps);
      SnakeTailCapitalsLength(caps[1..]);
    }
  }

  /** Capital `i` of a run becomes an underscore and its lower case at `2 * i`. */
  lemma {:induction false} SnakeTailCapitalAt(caps: string, i: nat)
    requires AllUpper(caps) && i < |caps|
    ensures 2 * i + 1 < |SnakeTail(caps)|
    ensures SnakeTail(caps)[2 * i] == '_' && SnakeTail(caps)[2 * i + 1] == Lower(caps[i])
  {
    AllUpperTail(caps);
    assert SnakeTail(caps) == ['_', Lower(caps[0])] + SnakeTail(caps[1..]);
    if i > 0 {
      SnakeTailCapitalAt(caps[1..], i - 1);
      assert caps[1..][i - 1] == caps[i];
    }
  }

  lemma CamelToSnakeCapitalsWord(caps: string, w: string)
    requires caps != [] && AllUpper(caps) && NoUpper(w)
    ensures CamelToSnake(caps + w) == CamelToSnake(caps) + w
  {
    AllUpperTail(caps);
    SnakeTailCapitals(caps[1..], w);
    assert (caps + w)[0] == caps[0] && (caps + w)[1..] == caps[1..] + w;
    assert [Lower(caps[0])] + (SnakeTail(caps[1..]) + w) == ([Lower(caps[0])] + SnakeTail(caps[1..])) + w;
  }

  lemma CamelToSnakeCapitalAt(caps: string, i: nat)
    requires AllUpper(caps) && 0 < i < |caps|
    ensures 2 * i < |CamelToSnake(caps)|
    ensures CamelToSnake(caps)[2 * i] == Lower(caps[i]) && CamelToSnake(caps)[2 * i - 1] == '_'
  {
    AllUpperTail(caps);
    SnakeTailCapitalAt(caps[1..], i - 1);
    assert caps[1..][i - 1] == caps[i];
    assert CamelToSnake(caps) == [Lower(caps[0])] + SnakeTail(caps[1..]);
  }

  /** Every capital of a leading acronym is split off on its own: for `k` capitals in front
      of a word without capitals, the result is the lowered capitals with `_` between them,
      followed by the word. */
  lemma CamelToSnakeAcronymPrefix(caps: string, w: string)
    requires caps != [] && AllUpper(caps) && NoUpper(w)
    ensures CamelToSnake(caps + w) == CamelToSnake(caps) + w
    ensures |CamelToSnake(caps)| == 2 * |caps| - 1
    ensures forall i :: 0 <= i < |caps| ==> CamelToSnake(caps)[2 * i] == Lower(caps[i]) && (i > 0 ==> CamelToSnake(caps)[2 * i - 1] == '_')
  {
    CamelToSnakeCapitalsWord(caps, w);
    AllUpperTail(caps);
    SnakeTailCapitalsLength(caps[1..]);
    forall i | 0 < i < |caps|
      ensures CamelToSnake(caps)[2 * i] == Lower(caps[i]) && CamelToSnake(caps)[2 * i - 1] == '_'
    {
      CamelToSnakeCapitalAt(caps, i);
    }
  }

  /** The discrepancy: the acronym is split letter by letter. */
  lemma CamelToSnakeSplitsAcronyms(name: string)
    requires name == "CPUUtilization"
    ensures CamelToSnake(name) == "c_p_u_utilization"
  {
    var caps, word := name[..4], name[4..];
    assert name == caps + word;
    assert AllUpper(caps) && NoUpper(word);
    CamelToSnakeAcronymPrefix(caps, word);
    var r := CamelToSnake(caps);
    assert r[0] == Lower(caps[0]) && r[2] == Lower(caps[1]) && r[4] == Lower(caps[2]) && r[6] == Lower(caps[3]);
    assert r == "c_p_u_u";
  }

  // ---------------------------------------------------------------- word boundaries

  /** A word boundary before position `i`: a capital after a lower-case letter or digit, or
      the last capital of an acronym that starts a new capitalised word. */
  predicate Boundary(name: string, i: nat)
    requires i < |name|
  {
    && 1 <= i && IsUpper(name[i])
    && (IsLowerOrDigit(name[i - 1]) || (IsUpper(name[i - 1]) && i + 1 < |name| && 'a' <= name[i + 1] <= 'z'))
  }

  function WordsFrom(name: string, i: nat): string
    requires i <= |name|
    decreases |name| - i
  {
    if i == |name| then []
    else (if Boundary(name, i) then "_" else "") + [Lower(name[i])] + WordsFrom(name, i + 1)
  }

  /** The conversion the column-name comment describes: underscores only at word
      boundaries, so an acronym stays one word. */
  function CamelToSnakeWords(name: string): string {
    WordsFrom(name, 0)
  }

  lemma {:induction false} WordsFromNoUpper(name: string, i: nat)
    requires i <= |name|
    ensures NoUpper(WordsFrom(name, i))
    decreases |name| - i
  {
    if i < |name| {
      WordsFromNoUpper(name, i + 1);
      var p := (if Boundary(name, i) then "_" else "") + [Lower(name[i])];
      assert NoUpper(p);
      assert WordsFrom(name, i) == p + WordsFrom(name, i + 1);
    }
  }

  /** The corrected conversion holds no capital letter either. */
  lemma CamelToSnakeWordsNoUpper(name: string)
    ensures NoUpper(CamelToSnakeWords(name))
  {
    WordsFromNoUpper(name, 0);
  }

  lemma {:induction false} WordsFromAgrees(name: string, i: nat)
    requires 1 <= i <= |name|
    requires forall k :: 1 <= k < |name| && IsUpper(name[k]) ==> IsLowerOrDigit(name[k - 1])
    ensures WordsFrom(name, i) == SnakeTail(name[i..])
    decreases |name| - i
  {
    if i < |name| {
      WordsFromAgrees(name, i + 1);
      assert name[i..][1..] == name[i + 1..];
      assert name[i..][0] == name[i];
    }
  }

  /** Where every capital after the first character follows a lower-case letter or digit,
      the two conversions agree, so only acronyms are named differently. */
  lemma CamelToSnakeWordsAgrees(name: string)
    requires forall k :: 1 <= k < |name| && IsUpper(name[k]) ==> IsLowerOrDigit(name[k - 1])
    ensures CamelToSnakeWords(name) == CamelToSnake(name)
  {
    if name != [] {
      WordsFromAgrees(name, 1);
      assert !Boundary(name, 0);
      assert WordsFrom(name, 0) == [Lower(name[0])] + WordsFrom(name, 1);
    }
  }

  lemma {:induction false} WordsFromFixed(name: string, i: nat)
    requires i <= |name|
    requires forall k :: i <= k < |name| ==> !IsUpper(name[k])
    ensures WordsFrom(name, i) == name[i..]
    decreases |name| - i
  {
    if i < |name| {
      WordsFromFixed(name, i + 1);
      assert name[i..] == [name[i]] + name[i + 1..];
    }
  }

  lemma WordsFromPlain(name: string, i: nat, r: string)
    requires i < |name| && !Boundary(name, i) && WordsFrom(name, i + 1) == r
    ensures WordsFrom(name, i) == [Lower(name[i])] + r
  {
  }

  lemma WordsFromBoundary(name: string, i: nat, r: string)
    requires i < |name| && Boundary(name, i) && WordsFrom(name, i + 1) == r
    ensures WordsFrom(name, i) == ['_', Lower(name[i])] + r
  {
  }

  /** The acronym's last capital starts the following lower-case word. */
  lemma AcronymLastCapital(w: string)
    requires NoUpper(w) && w != [] && 'a' <= w[0] <= 'z'
    ensures WordsFrom("CPUU" + w, 3) == "_u" + w
  {
    var name := "CPUU" + w;
    assert name[4..] == w;
    WordsFromFixed(name, 4);
    assert Boundary(name, 3);
    WordsFromBoundary(name, 3, w);
  }

  /** An acronym followed by a lower-case word: one underscore, before the acronym's last
      capital, which starts the word. */
  lemma WordsAcronymPrefix(w: string)
    requires NoUpper(w) && w != [] && 'a' <= w[0] <= 'z'
    ensures CamelToSnakeWords("CPUU" + w) == "cpu_u" + w
  {
    var name := "CPUU" + w;
    AcronymLastCapital(w);
    assert name[0] == 'C' && name[1] == 'P' && name[2] == 'U' && name[3] == 'U';
    WordsFromPlain(name, 2, "_u" + w);
    WordsFromPlain(name, 1, "u" + ("_u" + w));
    WordsFromPlain(name, 0, "p" + ("u" + ("_u" + w)));
    assert "c" + ("p" + ("u" + ("_u" + w))) == "cpu_u" + w;
  }

  /** With word boundaries the acronym stays one word. */
  lemma CamelToSnakeWordsKeepsAcronyms(name: string)
    requires name == "CPUUtilization"
    ensures CamelToSnakeWords(name) == "cpu_utilization"
  {
    var word := name[4..];
    assert name == "CPUU" + word;
    assert NoUpper(word);
    WordsAcronymPrefix(word);
  }

  // ---------------------------------------------------------------- column names

  /** `namespace.split("/")[-1]`: what follows the last `/`, or the whole string. */
  function LastSegment(s: string): string {
    if s == [] then []
    else if s[|s| - 1] == '/' then []
    else LastSegment(s[..|s| - 1]) + [s[|s| - 1]]
  }

  /** Which conversion names the columns: `_camel_to_snake` as written, or the one with
      word boundaries that the comment on the naming line describes. */
  datatype Naming = AsWritten | WordBoundaries

  function Snake(naming: Naming, metric: string): string {
    match naming
    case AsWritten => CamelToSnake(metric)
    case WordBoundaries => CamelToSnakeWords(metric)
  }

  /** The lower-cased last namespace segment, `"_"`, and the converted metric name; with
      `AsWritten` this is the name `fetch_all_metrics` computes. */
  function ColumnName(naming: Naming, namespace: string, metric: string): string {
    LowerAll(LastSegment(namespace)) + "_" + Snake(naming, metric)
  }

  /** As written, the EC2 CPU column cannot be the training target the retrain scheduler
      looks for; with word boundaries it is. */
  lemma EC2CpuColumn(namespace: string, metric: string)
    requires namespace == "AWS/EC2" && metric == "CPUUtilization"
    ensures ColumnName(AsWritten, namespace, metric) == "ec2_c_p_u_utilization"
    ensures ColumnName(AsWritten, namespace, metric) !in RetrainScheduler.TargetCandidates
    ensures ColumnName(WordBoundaries, namespace, metric) == "ec2_cpu_utilization"
    ensures ColumnName(WordBoundaries, namespace, metric) in RetrainScheduler.TargetCandidates
  {
    Ec2ColumnAsWritten(namespace, metric);
    Ec2ColumnWords(namespace, metric);
    AsWrittenNotTarget();
  }

  lemma Ec2ColumnAsWritten(namespace: string, metric: string)
    requires namespace == "AWS/EC2" && metric == "CPUUtilization"
    ensures ColumnName(AsWritten, namespace, metric) == "ec2_c_p_u_utilization"
  {
    Ec2Segment(namespace);
    CamelToSnakeSplitsAcronyms(metric);
    ColumnNameJoin(AsWritten, namespace, metric, "ec2", "c_p_u_utilization");
  }

  lemma Ec2ColumnWords(namespace: string, metric: string)
    requires namespace == "AWS/EC2" && metric == "CPUUtilization"
    ensures ColumnName(WordBoundaries, namespace, metric) == "ec2_cpu_utilization"
    ensures ColumnName(WordBoundaries, namespace, metric) == RetrainScheduler.TargetCandidates[2]
  {
    Ec2Segment(namespace);
    CamelToSnakeWordsKeepsAcronyms(metric);
    ColumnNameJoin(WordBoundaries, namespace, metric, "ec2", "cpu_utilization");
  }

  lemma ColumnNameJoin(naming: Naming, namespace: string, metric: string, segment: string, snake: string)
    requires LowerAll(LastSegment(namespace)) == segment && Snake(naming, metric) == snake
    ensures ColumnName(naming, namespace, metric) == segment + "_" + snake
  {
  }

  lemma AsWrittenNotTarget()
    ensures "ec2_c_p_u_utilization" !in RetrainScheduler.TargetCandidates
  {
  }

  lemma Ec2Segment(namespace: string)
    requires namespace == "AWS/EC2"
    ensures LowerAll(LastSegment(namespace)) == "ec2"
  {
    var seg := namespace[4..];
    assert LastSegment(namespace) == seg by {
      assert namespace == namespace[..3] + "/" + seg;
      assert '/' !in seg;
      LastSegmentAfterSlash(namespace[..3], seg);
    }
    var s1, s2 := seg[1..], seg[2..];
    assert s1[1..] == s2 && s2[1..] == [];
    assert LowerAll(s2) == ['2'];
    assert LowerAll(s1) == ['c', '2'];
    assert LowerAll(seg) == ['e', 'c', '2'];
  }

  /** The last segment is exactly what follows the last `/`. */
  lemma {:induction false} LastSegmentAfterSlash(p: string, seg: string)
    requires '/' !in seg
    ensures LastSegment(p + "/" + seg) == seg
    decreases |seg|
  {
    var s := p + "/" + seg;
    if seg == [] {
      assert s[|s| - 1] == '/';
    } else {
      var init := seg[..|seg| - 1];
      var last := seg[|seg| - 1];
      assert LastSegment(p + "/" + init) == init by {
        assert '/' !in init by {
          assert forall c :: c in init ==> c in seg;
        }
        LastSegmentAfterSlash(p, init);
      }
      assert LastSegment(s) == LastSegment(p + "/" + init) + [last] by {
        assert last in seg;
        assert s[|s| - 1] == last;
        assert s[..|s| - 1] == p + "/" + init;
      }
      assert seg == init + [last];
    }
  }

  /** Under either naming a column name starts with the lowered namespace segment and
      `_`, and holds no capital. As written, deleting its underscores leaves the segment and
      the metric name, lowered: the conversion adds nothing but underscores. */
  lemma ColumnNameShape(naming: Naming, namespace: string, metric: string)
    ensures LowerAll(LastSegment(namespace)) + "_" <= ColumnName(naming, namespace, metric)
    ensures NoUpper(ColumnName(naming, namespace, metric))
    ensures '_' !in metric ==>
      RemoveUnderscores(ColumnName(AsWritten, namespace, metric))
        == RemoveUnderscores(LowerAll(LastSegment(namespace))) + LowerAll(metric)
  {
    var a, b := LowerAll(LastSegment(namespace)), Snake(naming, metric);
    LowerAllNoUpper(LastSegment(namespace));
    match naming {
      case AsWritten => CamelToSnakeNoUpper(metric);
      case WordBoundaries => CamelToSnakeWordsNoUpper(metric);
    }
    NoUpperJoin(a, b);
    if '_' !in metric {
      ColumnNameUnderscores(namespace, metric);
    }
  }

  lemma NoUpperJoin(a: string, b: string)
    requires NoUpper(a) && NoUpper(b)
    ensures NoUpper(a + "_" + b)
  {
    forall i | 0 <= i < |a + "_" + b|
      ensures !IsUpper((a + "_" + b)[i])
    {
      if i < |a| {
        assert (a + "_" + b)[i] == a[i];
      } else if i > |a| {
        assert (a + "_" + b)[i] == b[i - |a| - 1];
      }
    }
  }

  lemma ColumnNameUnderscores(namespace: string, metric: string)
    requires '_' !in metric
    ensures RemoveUnderscores(ColumnName(AsWritten, namespace, metric))
              == RemoveUnderscores(LowerAll(LastSegment(namespace))) + LowerAll(metric)
  {
    var a, c := LowerAll(LastSegment(namespace)), CamelToSnake(metric);
    CamelToSnakeUnderscores(metric);
    ColumnNameJoin(AsWritten, namespace, metric, a, c);
    UnderscoresJoin(a, c);
  }

  lemma UnderscoresJoin(a: string, c: string)
    ensures RemoveUnderscores(a + "_" + c) == RemoveUnderscores(a) + RemoveUnderscores(c)
  {
    var u: string := "_";
    assert RemoveUnderscores(u) == [] by {
      assert u[0] == '_' && u[1..] == [];
    }
    RemoveUnderscoresAppend(a, u);
    assert RemoveUnderscores(a + u) == RemoveUnderscores(a);
    RemoveUnderscoresAppend(a + u, c);
  }

  lemma {:induction false} LowerAllNoUpper(s: string)
    ensures NoUpper(LowerAll(s))
  {
    if s != [] {
      LowerAllNoUpper(s[1..]);
      assert LowerAll(s) == [Lower(s[0])] + LowerAll(s[1..]);
    }
  }

  // ---------------------------------------------------------------- fetch_metric

  /** One entry of the `Dimensions` filter. */
  datatype Dimension = Dimension(name: string, value: string)

  /** The keyword arguments of one `get_metric_statistics` call. */
  datatype StatsRequest = StatsRequest(
    namespace: string,
    metricName: string,
    startTime: int,
    endTime: int,
    period: int,
    statistics: seq<string>,
    dimensions: Option<seq<Dimension>>)

  /** `kwargs` of `fetch_metric`; `now` is the current time in seconds. */
  function MetricRequest(namespace: string, metric: string, hours: int, period: int,
                         dimensions: Option<seq<Dimension>>, now: int): (req: StatsRequest)
    ensures req.statistics == ["Average"]
    ensures req.endTime == now && req.startTime == now - hours * 3600
    ensures req.dimensions.Some? <==> dimensions.Some? && |dimensions.value| > 0
    ensures req.dimensions.Some? ==> req.dimensions == dimensions
    ensures req.namespace == namespace && req.metricName == metric && req.period == period
  {
    StatsRequest(namespace, metric, now - hours * 3600, now, period, ["Average"],
                 if dimensions.Some? && |dimensions.value| > 0 then dimensions else None)
  }

  /** One returned datapoint: its `Timestamp` and, if present, its `Average`. */
  datatype Datapoint = Datapoint(timestamp: int, average: Option<real>)

  /** What `get_metric_statistics` did: raised, or answered (with or without `Datapoints`). */
  datatype StatsAnswer = Raised(msg: string) | Answered(datapoints: Option<seq<Datapoint>>)

  /** One row of the metric's frame. */
  datatype Record = Record(timestamp: int, value: real)

  function ToRecord(dp: Datapoint): Record {
    Record(dp.timestamp, dp.average.GetOr(0.0))
  }

  function Shape(dps: seq<Datapoint>): (rs: seq<Record>)
    ensures |rs| == |dps|
    ensures forall i :: 0 <= i < |dps| ==> rs[i] == ToRecord(dps[i])
  {
    if dps == [] then [] else [ToRecord(dps[0])] + Shape(dps[1..])
  }

  predicate SortedByTime(dps: seq<Datapoint>) {
    forall p, q :: 0 <= p < q < |dps| ==> dps[p].timestamp <= dps[q].timestamp
  }

  predicate RecordsSorted(rs: seq<Record>) {
    forall p, q :: 0 <= p < q < |rs| ==> rs[p].timestamp <= rs[q].timestamp
  }

  /** The datapoints the answer carries: `response.get("Datapoints", [])`. */
  function Points(answer: StatsAnswer): seq<Datapoint> {
    if answer.Answered? && answer.datapoints.Some? then answer.datapoints.value else []
  }

  /** `datapoints.sort(key=lambda x: x["Timestamp"])`, in place. */
  method SortByTimestamp(a: array<Datapoint>)
    modifies a
    ensures SortedByTime(a[..])
    ensures multiset(a[..]) == multiset(old(a[..]))
  {
    var i := 0;
    while i < a.Length
      invariant 0 <= i <= a.Length
      invariant SortedByTime(a[..i])
      invariant multiset(a[..]) == multiset(old(a[..]))
    {
      InsertAt(a, i);
      i := i + 1;
    }
    assert a[..a.Length] == a[..];
  }

  /** One insertion step: `a[i]` moves back past every earlier datapoint with a later
      timestamp, so the first `i + 1` are in order. */
  method InsertAt(a: array<Datapoint>, i: int)
    requires 0 <= i < a.Length
    requires SortedByTime(a[..i])
    modifies a
    ensures SortedByTime(a[..i + 1])
    ensures multiset(a[..]) == multiset(old(a[..]))
  {
    var j := i;
    while j > 0 && a[j - 1].timestamp > a[j].timestamp
      invariant 0 <= j <= i
      invariant forall p, q :: 0 <= p < q <= i && p != j && q != j ==> a[p].timestamp <= a[q].timestamp
      invariant forall q :: j < q <= i ==> a[j].timestamp < a[q].timestamp
      invariant multiset(a[..]) == multiset(old(a[..]))
    {
      SwapBack(a, j);
      j := j - 1;
    }
  }

  /** Exchanges `a[j - 1]` and `a[j]`, leaving the rest and the multiset as they were. */
  method SwapBack(a: array<Datapoint>, j: int)
    requires 0 < j < a.Length
    modifies a
    ensures a[j - 1] == old(a[j]) && a[j] == old(a[j - 1])
    ensures forall k :: 0 <= k < a.Length && k != j - 1 && k != j ==> a[k] == old(a[k])
    ensures multiset(a[..]) == multiset(old(a[..]))
  {
    a[j - 1], a[j] := a[j], a[j - 1];
  }

  lemma ShapeAppend(a: seq<Datapoint>, b: seq<Datapoint>)
    ensures Shape(a + b) == Shape(a) + Shape(b)
  {
    assert |Shape(a + b)| == |Shape(a) + Shape(b)|;
    forall i | 0 <= i < |a + b|
      ensures Shape(a + b)[i] == (Shape(a) + Shape(b))[i]
    {
    }
  }

  /** The sort and the record loop of `fetch_metric`: the records are the datapoints in
      time order, shaped one by one. */
  method SortedRecords(datapoints: seq<Datapoint>) returns (records: seq<Record>)
    ensures |records| == |datapoints|
    ensures RecordsSorted(records)
    ensures exists sorted :: SortedByTime(sorted) && multiset(sorted) == multiset(datapoints) && records == Shape(sorted)
  {
    var a := new Datapoint[|datapoints|](i requires 0 <= i < |datapoints| => datapoints[i]);
    assert a[..] == datapoints;
    SortByTimestamp(a);
    ghost var sorted := a[..];
    records := [];
    var i := 0;
    while i < a.Length
      invariant 0 <= i <= a.Length
      invariant a[..] == sorted
      invariant records == Shape(a[..i])
    {
      assert a[..i + 1] == a[..i] + [a[i]];
      ShapeAppend(a[..i], [a[i]]);
      records := records + [ToRecord(a[i])];
      i := i + 1;
    }
    assert a[..a.Length] == a[..];
    assert SortedByTime(a[..]) && multiset(a[..]) == multiset(datapoints) && records == Shape(a[..]);
  }

  /** The `try` block of `fetch_metric`: the request sent, and the time-ordered records
      shaped from the answer (none when the call raised or returned no datapoints). */
  method FetchMetric(namespace: string, metric: string, hours: int, period: int,
                     dimensions: Option<seq<Dimension>>, now: int, answer: StatsAnswer)
    returns (request: StatsRequest, records: seq<Record>)
    ensures request == MetricRequest(namespace, metric, hours, period, dimensions, now)
    ensures records == [] <==> Points(answer) == []
    ensures |records| == |Points(answer)|
    ensures RecordsSorted(records)
    ensures exists sorted :: SortedByTime(sorted) && multiset(sorted) == multiset(Points(answer)) && records == Shape(sorted)
  {
    request := StatsRequest(namespace, metric, now - hours * 3600, now, period, ["Average"], None);
    if dimensions.Some? && |dimensions.value| > 0 {
      request := request.(dimensions := dimensions);
    }
    var datapoints := if answer.Answered? && answer.datapoints.Some? then answer.datapoints.value else [];
    if |datapoints| == 0 {
      records := [];
      assert SortedByTime([]) && multiset([]) == multiset(Points(answer)) && records == Shape([]);
      return;
    }
    records := SortedRecords(datapoints);
  }

  // ---------------------------------------------------------------- fetch_all_metrics

  /** A metric table: namespaces, each with its metric names, in iteration order. */
  type Table = seq<(string, seq<string>)>

  /** `DEFAULT_METRICS`, in its insertion order. */
  const DefaultMetrics: Table := [
    ("AWS/EC2", ["CPUUtilization", "NetworkIn", "NetworkOut"]),
    ("AWS/RDS", ["CPUUtilization", "DatabaseConnections", "FreeableMemory"]),
    ("AWS/ApplicationELB", ["RequestCount", "TargetResponseTime"])
  ]

  /** The per-namespace dimensions: used only when the argument is truthy and has the key. */
  function NamespaceDims(dimensions: Option<map<string, seq<Dimension>>>, namespace: string): (d: Option<seq<Dimension>>)
    ensures d.Some? <==> dimensions.Some? && |dimensions.value| > 0 && namespace in dimensions.value
    ensures d.Some? ==> d.value == dimensions.value[namespace]
  {
    if dimensions.Some? && |dimensions.value| > 0 && namespace in dimensions.value then Some(dimensions.value[namespace]) else None
  }

  /** One frame kept for merging: its column name and its records. */
  datatype Series = Series(column: string, records: seq<Record>)

  /** Answers arranged like the table: one per metric of each namespace. */
  predicate AnswersFit(t: Table, answers: seq<seq<StatsAnswer>>) {
    |answers| == |t| && forall n :: 0 <= n < |answers| ==> |answers[n]| == |t[n].1|
  }

  /** The request for metric `j` of namespace `n`. */
  function RequestAt(t: Table, n: nat, j: nat, hours: int, now: int, dimensions: Option<map<string, seq<Dimension>>>): StatsRequest
    requires n < |t| && j < |t[n].1|
  {
    MetricRequest(t[n].0, t[n].1[j], hours, 300, NamespaceDims(dimensions, t[n].0), now)
  }

  /** The requests for the first `j` metrics of namespace `n`. */
  function NamespaceRequests(t: Table, n: nat, j: nat, hours: int, now: int, dimensions: Option<map<string, seq<Dimension>>>): seq<StatsRequest>
    requires n < |t| && j <= |t[n].1|
  {
    if j == 0 then [] else NamespaceRequests(t, n, j - 1, hours, now, dimensions) + [RequestAt(t, n, j - 1, hours, now, dimensions)]
  }

  /** The requests for all metrics of the first `n` namespaces, in order. */
  function AllRequests(t: Table, n: nat, hours: int, now: int, dimensions: Option<map<string, seq<Dimension>>>): seq<StatsRequest>
    requires n <= |t|
  {
    if n == 0 then [] else AllRequests(t, n - 1, hours, now, dimensions) + NamespaceRequests(t, n - 1, |t[n - 1].1|, hours, now, dimensions)
  }

  /** Which metrics came back with datapoints, arranged like the table. */
  type DataMask = seq<seq<bool>>

  /** Whether each answer of one namespace carries datapoints. */
  function RowData(row: seq<StatsAnswer>): seq<bool> {
    if row == [] then [] else [Points(row[0]) != []] + RowData(row[1..])
  }

  /** The mask of a set of answers, one row per namespace. */
  function HasData(answers: seq<seq<StatsAnswer>>): DataMask {
    if answers == [] then [] else [RowData(answers[0])] + HasData(answers[1..])
  }

  lemma {:induction false} RowDataAt(row: seq<StatsAnswer>, j: nat)
    requires j < |row|
    ensures |RowData(row)| == |row|
    ensures RowData(row)[j] <==> Points(row[j]) != []
  {
    if j > 0 {
      RowDataAt(row[1..], j - 1);
    } else if |row| > 1 {
      RowDataAt(row[1..], 0);
    }
  }

  /** The mask has an entry for every answer, set exactly when the answer carries
      datapoints. */
  lemma {:induction false} HasDataAt(answers: seq<seq<StatsAnswer>>, n: nat, j: nat)
    requires n < |answers| && j < |answers[n]|
    ensures n < |HasData(answers)| && j < |HasData(answers)[n]|
    ensures HasData(answers)[n][j] <==> Points(answers[n][j]) != []
  {
    if n > 0 {
      HasDataAt(answers[1..], n - 1, j);
    } else {
      RowDataAt(answers[0], j);
    }
  }

  /** Whether metric `j` of namespace `n` came back with data; a mask too short to say
      counts as no data. */
  predicate Present(data: DataMask, n: nat, j: nat) {
    n < |data| && j < |data[n]| && data[n][j]
  }

  /** The column name of every metric of the table, arranged like it. */
  type NameTable = seq<seq<string>>

  function Names(t: Table, naming: Naming): (names: NameTable)
    ensures |names| == |t|
  {
    seq(|t|, n requires 0 <= n < |t| => seq(|t[n].1|, j requires 0 <= j < |t[n].1| => ColumnName(naming, t[n].0, t[n].1[j])))
  }

  /** The table names metric `j` of namespace `n` by its column name. */
  lemma NamesAtPlace(t: Table, naming: Naming, n: nat, j: nat)
    requires n < |t| && j < |t[n].1|
    ensures NameAt(Names(t, naming), (n, j)) == ColumnName(naming, t[n].0, t[n].1[j])
  {
  }

  /** The column kept for metric `j` of namespace `n`: one when its answer carried
      datapoints, none otherwise. */
  function KeptColumn(t: Table, n: nat, j: nat, names: NameTable, data: DataMask): seq<string>
    requires n < |t| && j < |t[n].1|
  {
    if Present(data, n, j) then [NameAt(names, (n, j))] else []
  }

  /** The column names kept for the first `j` metrics of namespace `n`. */
  function NamespaceColumns(t: Table, n: nat, j: nat, names: NameTable, data: DataMask): seq<string>
    requires n < |t| && j <= |t[n].1|
  {
    if j == 0 then [] else NamespaceColumns(t, n, j - 1, names, data) + KeptColumn(t, n, j - 1, names, data)
  }

  function AllColumns(t: Table, n: nat, names: NameTable, data: DataMask): seq<string>
    requires n <= |t|
  {
    if n == 0 then [] else AllColumns(t, n - 1, names, data) + NamespaceColumns(t, n - 1, |t[n - 1].1|, names, data)
  }

  /** A metric's place in the table: its namespace's index and its index there. */
  type Origin = (nat, nat)

  /** Lexicographic order of places, the order the two loops visit them in. */
  predicate Before(o: Origin, p: Origin) {
    o.0 < p.0 || (o.0 == p.0 && o.1 < p.1)
  }

  /** The places whose metric is kept: metric `j` of namespace `n` when it had data. */
  function KeptOrigin(n: nat, j: nat, data: DataMask): seq<Origin> {
    if Present(data, n, j) then [(n, j)] else []
  }

  function NamespaceOrigins(t: Table, n: nat, j: nat, data: DataMask): seq<Origin>
    requires n < |t| && j <= |t[n].1|
  {
    if j == 0 then [] else NamespaceOrigins(t, n, j - 1, data) + KeptOrigin(n, j - 1, data)
  }

  function AllOrigins(t: Table, n: nat, data: DataMask): seq<Origin>
    requires n <= |t|
  {
    if n == 0 then [] else AllOrigins(t, n - 1, data) + NamespaceOrigins(t, n - 1, |t[n - 1].1|, data)
  }

  /** The places listed for the first `j` metrics of namespace `n` are exactly those with
      data, in increasing order. */
  lemma {:induction false} NamespaceOriginsExact(t: Table, n: nat, j: nat, data: DataMask)
    requires n < |t| && j <= |t[n].1|
    ensures forall o :: o in NamespaceOrigins(t, n, j, data) <==> o.0 == n && o.1 < j && Present(data, n, o.1)
    ensures forall i, k :: 0 <= i < k < |NamespaceOrigins(t, n, j, data)| ==>
      Before(NamespaceOrigins(t, n, j, data)[i], NamespaceOrigins(t, n, j, data)[k])
  {
    if j > 0 {
      NamespaceOriginsExact(t, n, j - 1, data);
      var front, last := NamespaceOrigins(t, n, j - 1, data), KeptOrigin(n, j - 1, data);
      assert NamespaceOrigins(t, n, j, data) == front + last;
      forall o | o in front
        ensures Before(o, (n, j - 1))
      {
      }
      OrderedConcat(front, last);
    }
  }

  /** Two increasing lists, every place of the first before every place of the second,
      join into an increasing list. */
  lemma OrderedConcat(a: seq<Origin>, b: seq<Origin>)
    requires forall i, k :: 0 <= i < k < |a| ==> Before(a[i], a[k])
    requires forall i, k :: 0 <= i < k < |b| ==> Before(b[i], b[k])
    requires forall o, p :: o in a && p in b ==> Before(o, p)
    ensures forall i, k :: 0 <= i < k < |a + b| ==> Before((a + b)[i], (a + b)[k])
  {
    forall i, k | 0 <= i < k < |a + b|
      ensures Before((a + b)[i], (a + b)[k])
    {
      if k < |a| {
        assert (a + b)[i] == a[i] && (a + b)[k] == a[k];
      } else if i >= |a| {
        assert (a + b)[i] == b[i - |a|] && (a + b)[k] == b[k - |a|];
      } else {
        assert (a + b)[i] == a[i] && (a + b)[k] == b[k - |a|];
        assert a[i] in a && b[k - |a|] in b;
      }
    }
  }

  /** The places listed for the first `m` namespaces are exactly the metrics there that had
      data, in the order the loops visit them. */
  lemma {:induction false} AllOriginsExact(t: Table, m: nat, data: DataMask)
    requires m <= |t|
    ensures forall o :: o in AllOrigins(t, m, data) <==> o.0 < m && o.1 < |t[o.0].1| && Present(data, o.0, o.1)
    ensures forall i, k :: 0 <= i < k < |AllOrigins(t, m, data)| ==> Before(AllOrigins(t, m, data)[i], AllOrigins(t, m, data)[k])
  {
    if m > 0 {
      AllOriginsExact(t, m - 1, data);
      NamespaceOriginsExact(t, m - 1, |t[m - 1].1|, data);
      var front, last := AllOrigins(t, m - 1, data), NamespaceOrigins(t, m - 1, |t[m - 1].1|, data);
      assert AllOrigins(t, m, data) == front + last;
      OrderedConcat(front, last);
    }
  }

  /** The name the table gives the metric at place `o` (empty outside it). */
  function NameAt(names: NameTable, o: Origin): string {
    if o.0 < |names| && o.1 < |names[o.0]| then names[o.0][o.1] else ""
  }

  function NamesAt(names: NameTable, origins: seq<Origin>): (r: seq<string>)
    ensures |r| == |origins|
  {
    if origins == [] then [] else NamesAt(names, origins[..|origins| - 1]) + [NameAt(names, origins[|origins| - 1])]
  }

  lemma {:induction false} NamesAtConcat(names: NameTable, a: seq<Origin>, b: seq<Origin>)
    ensures NamesAt(names, a + b) == NamesAt(names, a) + NamesAt(names, b)
    decreases |b|
  {
    if b == [] {
      assert a + b == a;
    } else {
      var init := b[..|b| - 1];
      assert (a + b)[..|a + b| - 1] == a + init;
      assert (a + b)[|a + b| - 1] == b[|b| - 1];
      NamesAtConcat(names, a, init);
    }
  }

  /** The columns kept in a namespace are the names of its listed places, in order. */
  lemma {:induction false} NamespaceColumnsAtOrigins(t: Table, n: nat, j: nat, names: NameTable, data: DataMask)
    requires n < |t| && j <= |t[n].1|
    ensures NamespaceColumns(t, n, j, names, data) == NamesAt(names, NamespaceOrigins(t, n, j, data))
  {
    if j > 0 {
      NamespaceColumnsAtOrigins(t, n, j - 1, names, data);
      NamesAtConcat(names, NamespaceOrigins(t, n, j - 1, data), KeptOrigin(n, j - 1, data));
      KeptColumnAtOrigin(t, n, j - 1, names, data);
    }
  }

  lemma KeptColumnAtOrigin(t: Table, n: nat, j: nat, names: NameTable, data: DataMask)
    requires n < |t| && j < |t[n].1|
    ensures KeptColumn(t, n, j, names, data) == NamesAt(names, KeptOrigin(n, j, data))
  {
    if Present(data, n, j) {
      assert NamesAt(names, [(n, j)]) == [NameAt(names, (n, j))];
    }
  }

  /** Column `i` is the name of the `i`-th listed place: with `AllOriginsExact`, the columns
      name exactly the metrics with data, in the order the loops visit them. */
  lemma {:induction false} ColumnsAtOrigins(t: Table, m: nat, names: NameTable, data: DataMask)
    requires m <= |t|
    ensures AllColumns(t, m, names, data) == NamesAt(names, AllOrigins(t, m, data))
  {
    if m > 0 {
      ColumnsAtOrigins(t, m - 1, names, data);
      ColumnsAtOriginsStep(t, m, names, data);
    }
  }

  lemma ColumnsAtOriginsStep(t: Table, m: nat, names: NameTable, data: DataMask)
    requires 0 < m <= |t|
    requires AllColumns(t, m - 1, names, data) == NamesAt(names, AllOrigins(t, m - 1, data))
    ensures AllColumns(t, m, names, data) == NamesAt(names, AllOrigins(t, m, data))
  {
    NamespaceColumnsAtOrigins(t, m - 1, |t[m - 1].1|, names, data);
    NamesAtConcat(names, AllOrigins(t, m - 1, data), NamespaceOrigins(t, m - 1, |t[m - 1].1|, data));
  }

  function Columns(frames: seq<Series>): (cs: seq<string>)
    ensures |cs| == |frames|
    ensures forall i :: 0 <= i < |frames| ==> cs[i] == frames[i].column
  {
    if frames == [] then [] else [frames[0].column] + Columns(frames[1..])
  }

  lemma ColumnsConcat(a: seq<Series>, b: seq<Series>)
    ensures Columns(a + b) == Columns(a) + Columns(b)
  {
    assert |Columns(a + b)| == |Columns(a) + Columns(b)|;
    forall i | 0 <= i < |a + b|
      ensures Columns(a + b)[i] == (Columns(a) + Columns(b))[i]
    {
    }
  }

  /** The `k`-th request of a namespace asks for its `k`-th metric with the namespace's
      dimensions and a 300-second period. */
  lemma {:induction false} NamespaceRequestsAt(t: Table, n: nat, j: nat, hours: int, now: int, dimensions: Option<map<string, seq<Dimension>>>)
    requires n < |t| && j <= |t[n].1|
    ensures |NamespaceRequests(t, n, j, hours, now, dimensions)| == j
    ensures forall k :: 0 <= k < j ==>
      NamespaceRequests(t, n, j, hours, now, dimensions)[k]
        == MetricRequest(t[n].0, t[n].1[k], hours, 300, NamespaceDims(dimensions, t[n].0), now)
  {
    if j > 0 {
      NamespaceRequestsAt(t, n, j - 1, hours, now, dimensions);
    }
  }

  /** The number of metrics of the first `n` namespaces. */
  function MetricCount(t: Table, n: nat): nat
    requires n <= |t|
  {
    if n == 0 then 0 else MetricCount(t, n - 1) + |t[n - 1].1|
  }

  /** A table sends one request per metric it lists. */
  lemma {:induction false} AllRequestsLength(t: Table, n: nat, hours: int, now: int, dimensions: Option<map<string, seq<Dimension>>>)
    requires n <= |t|
    ensures |AllRequests(t, n, hours, now, dimensions)| == MetricCount(t, n)
  {
    if n > 0 {
      AllRequestsLength(t, n - 1, hours, now, dimensions);
      NamespaceRequestsAt(t, n - 1, |t[n - 1].1|, hours, now, dimensions);
    }
  }

  lemma DefaultMetricsSizes()
    ensures |DefaultMetrics| == 3
    ensures |DefaultMetrics[0].1| == 3 && |DefaultMetrics[1].1| == 3 && |DefaultMetrics[2].1| == 2
  {
  }

  /** Every default metric is requested once: eight requests in all. */
  lemma AllRequestsCount(hours: int, now: int, dimensions: Option<map<string, seq<Dimension>>>)
    ensures |AllRequests(DefaultMetrics, |DefaultMetrics|, hours, now, dimensions)| == 8
  {
    AllRequestsLength(DefaultMetrics, |DefaultMetrics|, hours, now, dimensions);
    DefaultMetricsSizes();
    assert MetricCount(DefaultMetrics, 1) == 3;
    assert MetricCount(DefaultMetrics, 2) == 6;
  }

  /** Later metrics only add columns after those of earlier ones. */
  lemma {:induction false} NamespaceColumnsPrefix(t: Table, n: nat, j: nat, k: nat, names: NameTable, data: DataMask)
    requires n < |t| && j <= k <= |t[n].1|
    ensures NamespaceColumns(t, n, j, names, data) <= NamespaceColumns(t, n, k, names, data)
    decreases k - j
  {
    if j < k {
      NamespaceColumnsPrefix(t, n, j, k - 1, names, data);
      Lists.PrefixExtend(NamespaceColumns(t, n, j, names, data), NamespaceColumns(t, n, k - 1, names, data),
                         KeptColumn(t, n, k - 1, names, data), NamespaceColumns(t, n, k, names, data));
    }
  }

  /** Later namespaces only add columns after those of earlier ones. */
  lemma {:induction false} AllColumnsPrefix(t: Table, n: nat, m: nat, names: NameTable, data: DataMask)
    requires n <= m <= |t|
    ensures AllColumns(t, n, names, data) <= AllColumns(t, m, names, data)
    decreases m - n
  {
    if n < m {
      AllColumnsPrefix(t, n, m - 1, names, data);
      Lists.PrefixExtend(AllColumns(t, n, names, data), AllColumns(t, m - 1, names, data),
                         NamespaceColumns(t, m - 1, |t[m - 1].1|, names, data), AllColumns(t, m, names, data));
    }
  }

  /** When EC2 CPU data came back, the first column under `naming` is that metric's name. */
  lemma FirstColumn(naming: Naming, data: DataMask)
    requires Present(data, 0, 0)
    ensures |AllColumns(DefaultMetrics, |DefaultMetrics|, Names(DefaultMetrics, naming), data)| > 0
    ensures AllColumns(DefaultMetrics, |DefaultMetrics|, Names(DefaultMetrics, naming), data)[0]
              == ColumnName(naming, DefaultMetrics[0].0, DefaultMetrics[0].1[0])
  {
    var names := Names(DefaultMetrics, naming);
    NamesAtPlace(DefaultMetrics, naming, 0, 0);
    assert NamespaceColumns(DefaultMetrics, 0, 1, names, data) == [NameAt(names, (0, 0))];
    NamespaceColumnsPrefix(DefaultMetrics, 0, 1, 3, names, data);
    AllColumnsPrefix(DefaultMetrics, 1, |DefaultMetrics|, names, data);
    assert AllColumns(DefaultMetrics, 1, names, data) == NamespaceColumns(DefaultMetrics, 0, 3, names, data);
  }

  /** As written, when EC2 CPU data came back the first column is `ec2_c_p_u_utilization`,
      which is none of the retrain scheduler's training targets. */
  lemma FirstColumnIsCpu(data: DataMask)
    requires Present(data, 0, 0)
    ensures |AllColumns(DefaultMetrics, |DefaultMetrics|, Names(DefaultMetrics, AsWritten), data)| > 0
    ensures AllColumns(DefaultMetrics, |DefaultMetrics|, Names(DefaultMetrics, AsWritten), data)[0] == "ec2_c_p_u_utilization"
    ensures AllColumns(DefaultMetrics, |DefaultMetrics|, Names(DefaultMetrics, AsWritten), data)[0] !in RetrainScheduler.TargetCandidates
  {
    FirstColumn(AsWritten, data);
    EC2CpuColumn(DefaultMetrics[0].0, DefaultMetrics[0].1[0]);
  }

  /** With word boundaries, the same first column is `ec2_cpu_utilization`, one of the
      retrain scheduler's training targets. */
  lemma FirstColumnIsTarget(data: DataMask)
    requires Present(data, 0, 0)
    ensures |AllColumns(DefaultMetrics, |DefaultMetrics|, Names(DefaultMetrics, WordBoundaries), data)| > 0
    ensures AllColumns(DefaultMetrics, |DefaultMetrics|, Names(DefaultMetrics, WordBoundaries), data)[0] == "ec2_cpu_utilization"
    ensures AllColumns(DefaultMetrics, |DefaultMetrics|, Names(DefaultMetrics, WordBoundaries), data)[0] == RetrainScheduler.TargetCandidates[2]
  {
    FirstColumn(WordBoundaries, data);
    Ec2ColumnWords(DefaultMetrics[0].0, DefaultMetrics[0].1[0]);
  }

  lemma {:induction false} NoDataNamespace(t: Table, n: nat, j: nat, names: NameTable, data: DataMask)
    requires n < |t| && j <= |t[n].1|
    requires forall k :: !Present(data, n, k)
    ensures NamespaceColumns(t, n, j, names, data) == []
  {
    if j > 0 {
      NoDataNamespace(t, n, j - 1, names, data);
      assert KeptColumn(t, n, j - 1, names, data) == [];
    }
  }

  /** With no datapoints anywhere, nothing is kept, whatever the names. */
  lemma NoDataNoColumns(names: NameTable, data: DataMask)
    requires forall n, j :: !Present(data, n, j)
    ensures AllColumns(DefaultMetrics, |DefaultMetrics|, names, data) == []
  {
    DefaultMetricsSizes();
    NoDataNamespace(DefaultMetrics, 0, 3, names, data);
    NoDataNamespace(DefaultMetrics, 1, 3, names, data);
    NoDataNamespace(DefaultMetrics, 2, 2, names, data);
    assert AllColumns(DefaultMetrics, 1, names, data) == [];
    assert AllColumns(DefaultMetrics, 2, names, data) == [];
  }

  /** A series kept for merging: it has records, in time order. */
  predicate Kept(f: Series) {
    f.records != [] && RecordsSorted(f.records)
  }

  /** The records are the answer's datapoints in time order, shaped one by one. */
  ghost predicate RecordsOf(records: seq<Record>, answer: StatsAnswer) {
    exists sorted :: SortedByTime(sorted) && multiset(sorted) == multiset(Points(answer)) && records == Shape(sorted)
  }

  /** The answer to the metric at place `o` (no datapoints for a place outside the
      answers). */
  function AnswerAt(answers: seq<seq<StatsAnswer>>, o: Origin): StatsAnswer {
    if o.0 < |answers| && o.1 < |answers[o.0]| then answers[o.0][o.1] else Answered(None)
  }

  /** The answers to the metrics at the given places, in the same order. */
  function AnswersAt(answers: seq<seq<StatsAnswer>>, origins: seq<Origin>): (r: seq<StatsAnswer>)
    ensures |r| == |origins|
  {
    if origins == [] then [] else AnswersAt(answers, origins[..|origins| - 1]) + [AnswerAt(answers, origins[|origins| - 1])]
  }

  lemma {:induction false} AnswersAtIndex(answers: seq<seq<StatsAnswer>>, origins: seq<Origin>, i: nat)
    requires i < |origins|
    ensures AnswersAt(answers, origins)[i] == AnswerAt(answers, origins[i])
    decreases |origins|
  {
    if i < |origins| - 1 {
      AnswersAtIndex(answers, origins[..|origins| - 1], i);
    }
  }

  lemma {:induction false} AnswersAtConcat(answers: seq<seq<StatsAnswer>>, a: seq<Origin>, b: seq<Origin>)
    ensures AnswersAt(answers, a + b) == AnswersAt(answers, a) + AnswersAt(answers, b)
    decreases |b|
  {
    if b == [] {
      assert a + b == a;
    } else {
      var init := b[..|b| - 1];
      assert (a + b)[..|a + b| - 1] == a + init;
      assert (a + b)[|a + b| - 1] == b[|b| - 1];
      AnswersAtConcat(answers, a, init);
    }
  }

  /** Series `i` holds the datapoints of answer `i`. */
  ghost predicate Holds(frames: seq<Series>, sources: seq<StatsAnswer>) {
    |frames| == |sources| && forall i :: 0 <= i < |frames| ==> RecordsOf(frames[i].records, sources[i])
  }

  lemma HoldsConcat(f1: seq<Series>, s1: seq<StatsAnswer>, f2: seq<Series>, s2: seq<StatsAnswer>)
    requires Holds(f1, s1) && Holds(f2, s2)
    ensures Holds(f1 + f2, s1 + s2)
  {
    forall i | 0 <= i < |f1 + f2|
      ensures RecordsOf((f1 + f2)[i].records, (s1 + s2)[i])
    {
      if i < |f1| {
        assert (f1 + f2)[i] == f1[i] && (s1 + s2)[i] == s1[i];
      } else {
        assert (f1 + f2)[i] == f2[i - |f1|] && (s1 + s2)[i] == s2[i - |f1|];
      }
    }
  }

  /** One turn of the inner loop of `fetch_all_metrics`: the metric's request, and the
      series kept for it, which is one series under its column, holding its datapoints,
      exactly when data came back. */
  method FetchOne(namespace: string, metric: string, hours: int, dims: Option<seq<Dimension>>, now: int,
                  naming: Naming, answer: StatsAnswer)
    returns (request: StatsRequest, kept: seq<Series>)
    ensures request == MetricRequest(namespace, metric, hours, 300, dims, now)
    ensures Columns(kept) == if Points(answer) == [] then [] else [ColumnName(naming, namespace, metric)]
    ensures forall f :: f in kept ==> Kept(f) && RecordsOf(f.records, answer)
  {
    var records;
    request, records := FetchMetric(namespace, metric, hours, 300, dims, now, answer);
    if records != [] {
      kept := [Series(ColumnName(naming, namespace, metric), records)];
    } else {
      kept := [];
    }
  }

  lemma NamespaceStep(t: Table, n: nat, j: nat, hours: int, now: int, dimensions: Option<map<string, seq<Dimension>>>,
                      naming: Naming, answers: seq<seq<StatsAnswer>>)
    requires AnswersFit(t, answers) && n < |t| && j < |t[n].1|
    ensures NamespaceRequests(t, n, j + 1, hours, now, dimensions)
      == NamespaceRequests(t, n, j, hours, now, dimensions) + [RequestAt(t, n, j, hours, now, dimensions)]
    ensures NamespaceColumns(t, n, j + 1, Names(t, naming), HasData(answers))
      == NamespaceColumns(t, n, j, Names(t, naming), HasData(answers))
         + (if Points(answers[n][j]) == [] then [] else [ColumnName(naming, t[n].0, t[n].1[j])])
    ensures NamespaceOrigins(t, n, j + 1, HasData(answers))
      == NamespaceOrigins(t, n, j, HasData(answers)) + (if Points(answers[n][j]) == [] then [] else [(n, j)])
  {
    HasDataAt(answers, n, j);
    NamesAtPlace(t, naming, n, j);
  }

  /** The series of one turn hold the datapoints of its metric's answer. */
  lemma HoldsOne(answers: seq<seq<StatsAnswer>>, n: nat, j: nat, kept: seq<Series>)
    requires n < |answers| && j < |answers[n]|
    requires |kept| == (if Points(answers[n][j]) == [] then 0 else 1)
    requires forall f :: f in kept ==> RecordsOf(f.records, answers[n][j])
    ensures Holds(kept, AnswersAt(answers, if Points(answers[n][j]) == [] then [] else [(n, j)]))
  {
    if kept != [] {
      assert kept[0] in kept;
      assert AnswersAt(answers, [(n, j)]) == [answers[n][j]];
    }
  }

  /** What the inner loop has produced once the first `j` metrics of namespace `n` are done. */
  ghost predicate NamespaceFetchedUpTo(t: Table, n: nat, j: nat, hours: int, dimensions: Option<map<string, seq<Dimension>>>,
                                       now: int, naming: Naming, answers: seq<seq<StatsAnswer>>,
                                       requests: seq<StatsRequest>, frames: seq<Series>)
    requires AnswersFit(t, answers) && n < |t| && j <= |t[n].1|
  {
    && requests == NamespaceRequests(t, n, j, hours, now, dimensions)
    && Columns(frames) == NamespaceColumns(t, n, j, Names(t, naming), HasData(answers))
    && (forall f :: f in frames ==> Kept(f))
    && Holds(frames, AnswersAt(answers, NamespaceOrigins(t, n, j, HasData(answers))))
  }

  /** The inner loop of `fetch_all_metrics`, over the metrics of namespace `n`. */
  method FetchNamespace(t: Table, n: nat, hours: int, dimensions: Option<map<string, seq<Dimension>>>, now: int,
                        naming: Naming, answers: seq<seq<StatsAnswer>>)
    returns (requests: seq<StatsRequest>, frames: seq<Series>)
    requires AnswersFit(t, answers) && n < |t|
    ensures requests == NamespaceRequests(t, n, |t[n].1|, hours, now, dimensions)
    ensures Columns(frames) == NamespaceColumns(t, n, |t[n].1|, Names(t, naming), HasData(answers))
    ensures forall f :: f in frames ==> Kept(f)
    ensures Holds(frames, AnswersAt(answers, NamespaceOrigins(t, n, |t[n].1|, HasData(answers))))
  {
    var nsDims := NamespaceDims(dimensions, t[n].0);
    requests := [];
    frames := [];
    var j := 0;
    while j < |t[n].1|
      invariant 0 <= j <= |t[n].1|
      invariant NamespaceFetchedUpTo(t, n, j, hours, dimensions, now, naming, answers, requests, frames)
    {
      requests, frames, j := FetchNextMetric(t, n, j, hours, dimensions, nsDims, now, naming, answers, requests, frames);
    }
  }

  /** One turn of the inner loop: metric `j`'s request and series appended to those before it,
      and the index of the next metric. */
  method FetchNextMetric(t: Table, n: nat, j: nat, hours: int, dimensions: Option<map<string, seq<Dimension>>>,
                         nsDims: Option<seq<Dimension>>, now: int, naming: Naming, answers: seq<seq<StatsAnswer>>,
                         requests: seq<StatsRequest>, frames: seq<Series>)
    returns (requests': seq<StatsRequest>, frames': seq<Series>, j': nat)
    requires AnswersFit(t, answers) && n < |t| && j < |t[n].1|
    requires nsDims == NamespaceDims(dimensions, t[n].0)
    requires NamespaceFetchedUpTo(t, n, j, hours, dimensions, now, naming, answers, requests, frames)
    ensures j' == j + 1
    ensures NamespaceFetchedUpTo(t, n, j', hours, dimensions, now, naming, answers, requests', frames')
  {
    var request, kept := FetchOne(t[n].0, t[n].1[j], hours, nsDims, now, naming, answers[n][j]);
    NamespaceStep(t, n, j, hours, now, dimensions, naming, answers);
    ColumnsConcat(frames, kept);
    HoldsOne(answers, n, j, kept);
    var before := NamespaceOrigins(t, n, j, HasData(answers));
    var step: seq<Origin> := if Points(answers[n][j]) == [] then [] else [(n, j)];
    AnswersAtConcat(answers, before, step);
    HoldsConcat(frames, AnswersAt(answers, before), kept, AnswersAt(answers, step));
    requests' := requests + [request];
    frames' := frames + kept;
    j' := j + 1;
  }

  lemma TableStep(t: Table, n: nat, hours: int, now: int, dimensions: Option<map<string, seq<Dimension>>>,
                  naming: Naming, answers: seq<seq<StatsAnswer>>)
    requires AnswersFit(t, answers) && n < |t|
    ensures AllRequests(t, n + 1, hours, now, dimensions)
      == AllRequests(t, n, hours, now, dimensions) + NamespaceRequests(t, n, |t[n].1|, hours, now, dimensions)
    ensures AllColumns(t, n + 1, Names(t, naming), HasData(answers))
      == AllColumns(t, n, Names(t, naming), HasData(answers)) + NamespaceColumns(t, n, |t[n].1|, Names(t, naming), HasData(answers))
    ensures AllOrigins(t, n + 1, HasData(answers))
      == AllOrigins(t, n, HasData(answers)) + NamespaceOrigins(t, n, |t[n].1|, HasData(answers))
  {
  }

  /** What the loops of `fetch_all_metrics` have produced once the first `n` namespaces of
      the table are done. */
  ghost predicate FetchedUpTo(t: Table, n: nat, hours: int, dimensions: Option<map<string, seq<Dimension>>>, now: int,
                        naming: Naming, answers: seq<seq<StatsAnswer>>, requests: seq<StatsRequest>, frames: seq<Series>)
    requires AnswersFit(t, answers) && n <= |t|
  {
    && requests == AllRequests(t, n, hours, now, dimensions)
    && Columns(frames) == AllColumns(t, n, Names(t, naming), HasData(answers))
    && (forall f :: f in frames ==> Kept(f))
    && Holds(frames, AnswersAt(answers, AllOrigins(t, n, HasData(answers))))
  }

  /** The loops of `fetch_all_metrics` over a table: the requests of every metric in order,
      and series `i` is the one of the `i`-th metric with data, under its column name,
      holding its datapoints in time order. */
  method FetchTable(t: Table, hours: int, dimensions: Option<map<string, seq<Dimension>>>, now: int,
                    naming: Naming, answers: seq<seq<StatsAnswer>>)
    returns (requests: seq<StatsRequest>, frames: seq<Series>)
    requires AnswersFit(t, answers)
    ensures requests == AllRequests(t, |t|, hours, now, dimensions)
    ensures Columns(frames) == AllColumns(t, |t|, Names(t, naming), HasData(answers))
    ensures forall f :: f in frames ==> Kept(f)
    ensures Holds(frames, AnswersAt(answers, AllOrigins(t, |t|, HasData(answers))))
  {
    requests := [];
    frames := [];
    var n := 0;
    while n < |t|
      invariant 0 <= n <= |t|
      invariant FetchedUpTo(t, n, hours, dimensions, now, naming, answers, requests, frames)
    {
      requests, frames, n := FetchNextNamespace(t, n, hours, dimensions, now, naming, answers, requests, frames);
    }
  }

  /** One turn of the outer loop: namespace `n`'s requests and series appended to those of
      the namespaces before it, and the index of the next namespace. */
  method FetchNextNamespace(t: Table, n: nat, hours: int, dimensions: Option<map<string, seq<Dimension>>>, now: int,
                            naming: Naming, answers: seq<seq<StatsAnswer>>, requests: seq<StatsRequest>, frames: seq<Series>)
    returns (requests': seq<StatsRequest>, frames': seq<Series>, n': nat)
    requires AnswersFit(t, answers) && n < |t|
    requires FetchedUpTo(t, n, hours, dimensions, now, naming, answers, requests, frames)
    ensures n' == n + 1
    ensures FetchedUpTo(t, n', hours, dimensions, now, naming, answers, requests', frames')
  {
    var nsRequests, nsFrames := FetchNamespace(t, n, hours, dimensions, now, naming, answers);
    TableStep(t, n, hours, now, dimensions, naming, answers);
    ColumnsConcat(frames, nsFrames);
    AnswersAtConcat(answers, AllOrigins(t, n, HasData(answers)), NamespaceOrigins(t, n, |t[n].1|, HasData(answers)));
    HoldsConcat(frames, AnswersAt(answers, AllOrigins(t, n, HasData(answers))), nsFrames,
                AnswersAt(answers, NamespaceOrigins(t, n, |t[n].1|, HasData(answers))));
    requests' := requests + nsRequests;
    frames' := frames + nsFrames;
    n' := n + 1;
  }

  /** The loops of `fetch_all_metrics` up to the merge, as written: every default metric is
      requested with its namespace's dimensions, and each one that returned data contributes
      one series, in `DefaultMetrics` order, named by `_camel_to_snake` and holding its
      datapoints in time order. */
  method FetchAllMetrics(hours: int, dimensions: Option<map<string, seq<Dimension>>>, now: int,
                         answers: seq<seq<StatsAnswer>>)
    returns (requests: seq<StatsRequest>, frames: seq<Series>)
    requires AnswersFit(DefaultMetrics, answers)
    ensures requests == AllRequests(DefaultMetrics, |DefaultMetrics|, hours, now, dimensions)
    ensures Columns(frames) == AllColumns(DefaultMetrics, |DefaultMetrics|, Names(DefaultMetrics, AsWritten), HasData(answers))
    ensures forall f :: f in frames ==> Kept(f)
    ensures Holds(frames, AnswersAt(answers, AllOrigins(DefaultMetrics, |DefaultMetrics|, HasData(answers))))
  {
    requests, frames := FetchTable(DefaultMetrics, hours, dimensions, now, AsWritten, answers);
  }

  /** The same loops with the column names the naming comment intends. */
  method FetchAllMetricsWords(hours: int, dimensions: Option<map<string, seq<Dimension>>>, now: int,
                              answers: seq<seq<StatsAnswer>>)
    returns (requests: seq<StatsRequest>, frames: seq<Series>)
    requires AnswersFit(DefaultMetrics, answers)
    ensures requests == AllRequests(DefaultMetrics, |DefaultMetrics|, hours, now, dimensions)
    ensures Columns(frames) == AllColumns(DefaultMetrics, |DefaultMetrics|, Names(DefaultMetrics, WordBoundaries), HasData(answers))
    ensures forall f :: f in frames ==> Kept(f)
    ensures Holds(frames, AnswersAt(answers, AllOrigins(DefaultMetrics, |DefaultMetrics|, HasData(answers))))
  {
    requests, frames := FetchTable(DefaultMetrics, hours, dimensions, now, WordBoundaries, answers);
  }

  // ---------------------------------------------------------------- the client

  /** The keyword arguments the boto3 client is created with. */
  datatype ClientConfig = ClientConfig(region: string, accessKeyId: Option<string>, secretAccessKey: Option<string>)

  class Fetcher {
    const region: string
    const accessKey: Option<string>
    const secretKey: Option<string>
    var client: Option<ClientConfig>

    /** `region or "us-east-1"`. */
    constructor (region: Option<string>, accessKey: Option<string>, secretKey: Option<string>)
      ensures this.region == (if Truthy(region) then region.value else "us-east-1")
      ensures this.accessKey == accessKey && this.secretKey == secretKey && client == None
    {
      this.region := if region.Some? && region.value != "" then region.value else "us-east-1";
      this.accessKey := accessKey;
      this.secretKey := secretKey;
      client := None;
    }

    /** `_get_client`: created once, credentials passed only when both are set. */
    method GetClient() returns (c: ClientConfig)
      modifies this
      ensures old(client).Some? ==> c == old(client).value
      ensures old(client).None? ==> c == ClientConfig(region,
                 if Truthy(accessKey) && Truthy(secretKey) then accessKey else None,
                 if Truthy(accessKey) && Truthy(secretKey) then secretKey else None)
      ensures client == Some(c)
    {
      if client.None? {
        var created := ClientConfig(region, None, None);
        if accessKey.Some? && accessKey.value != "" && secretKey.Some? && secretKey.value != "" {
          created := created.(accessKeyId := accessKey, secretAccessKey := secretKey);
        }
        client := Some(created);
      }
      c := client.value;
    }
  }
}
