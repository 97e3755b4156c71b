/**
 * Startup-script templates as lines, the seven placeholder tokens they may
 * carry, and the rendering that postCreate applies to them: one
 * first-occurrence replacement per token, in a fixed order.
 */
module StartupScript {
  import opened GoStrings

  /** The runtime values a startup script is parameterised by. */
  datatype Placeholder = Version | ServiceCidr | PodCidr | PublicIp | MachineId | ClusterToken | MasterIp

  /** The order in which postCreate substitutes the placeholders. */
  const SubstitutionOrder: seq<Placeholder> :=
    [Version, ServiceCidr, PodCidr, PublicIp, MachineId, ClusterToken, MasterIp]

  /** The word between the double underscores of a token. */
  function Label(p: Placeholder): (n: string)
    ensures 0 < |n| && n[0] != '_' && n[|n| - 1] != '_' && NoDoubleUnderscore(n)
    ensures '\n' !in n && '=' !in n
  {
    match p
    case Version => "VERSION"
    case ServiceCidr => "SVC_CIDR"
    case PodCidr => "POD_CIDR"
    case PublicIp => "PUBLICIP"
    case MachineId => "MACHINE"
    case ClusterToken => "TOKEN"
    case MasterIp => "MASTER"
  }

  /** The placeholder as written in a template, such as `__VERSION__`. */
  function Token(p: Placeholder): string
  {
    "__" + Label(p) + "__"
  }

  lemma TokenShape(p: Placeholder)
    ensures |Token(p)| >= 5 && Token(p)[0] == '_' && Token(p)[1] == '_'
    ensures '\n' !in Token(p) && '=' !in Token(p)
  {
    var n := Label(p);
    assert Token(p) == "__" + n + "__";
    assert '\n' !in "__";
    assert '=' !in "__";
  }

  /**
   * A word framed by double underscores occurs in another such framed
   * word only as the whole of it, provided neither word holds a double
   * underscore or begins or ends with one.
   */
  lemma FramedOccurrences(n: string, m: string)
    requires 0 < |n| && n[0] != '_' && n[|n| - 1] != '_' && NoDoubleUnderscore(n)
    requires 0 < |m| && m[0] != '_' && m[|m| - 1] != '_' && NoDoubleUnderscore(m)
    ensures Occurrences("__" + n + "__", "__" + m + "__") == (if n == m then 1 else 0)
  {
    var s := "__" + n + "__";
    var t := "__" + m + "__";
    assert forall k | 2 <= k < |n| + 2 :: s[k] == n[k - 2];
    assert s[0] == '_' && s[1] == '_' && s[|n| + 2] == '_' && s[|n| + 3] == '_';
    assert t[0] == '_' && t[1] == '_' && t[|m| + 2] == '_' && t[|m| + 3] == '_';
    if |s| >= |t| {
      OccurrencesHead(s, t);
      var u := s[1..];
      forall i | 0 <= i && i + |t| <= |u|
        ensures !(u[i] == '_' && u[i + 1] == '_')
      {
        assert u[i] == s[i + 1] && u[i + 1] == s[i + 2];
        if i > 0 {
          assert s[i + 1] == n[i - 1] && s[i + 2] == n[i];
        }
      }
      NoPairNoOccurrence(u, t);
      if |m| < |n| {
        if |m| + 1 == |n| {
          assert s[|m| + 2] == n[|n| - 1];
        } else {
          assert s[|m| + 2] == n[|m|] && s[|m| + 3] == n[|m| + 1];
        }
        assert !(s[..|t|][|m| + 2] == '_' && s[..|t|][|m| + 3] == '_');
        assert s[..|t|] != t;
      } else {
        assert s[..|t|] == s;
        if s == t {
          assert n == s[2..|s| - 2] == t[2..|t| - 2] == m;
        }
      }
    }
  }

  lemma LabelsDiffer(p: Placeholder, q: Placeholder)
    requires p != q
    ensures Label(p) != Label(q)
  {
    match p
    case Version => assert Label(q)[0] != 'V' || |Label(q)| != 7;
    case ServiceCidr => assert Label(q)[1] != 'V' || |Label(q)| != 8;
    case PodCidr => assert Label(q)[1] != 'O' || |Label(q)| != 8;
    case PublicIp => assert Label(q)[1] != 'U' || |Label(q)| != 8;
    case MachineId => assert Label(q)[0] != 'M' || |Label(q)| != 7;
    case ClusterToken => assert |Label(q)| != 5;
    case MasterIp => assert Label(q)[0] != 'M' || |Label(q)| != 6;
  }

  /** Each token occurs once in itself and nowhere inside another token. */
  lemma TokensDistinct(p: Placeholder, q: Placeholder)
    ensures Occurrences(Token(q), Token(p)) == (if p == q then 1 else 0)
  {
    FramedOccurrences(Label(q), Label(p));
    if p != q {
      LabelsDiffer(q, p);
    }
  }

  /** The values substituted for the placeholders. */
  datatype Values = Values(
    version: string, serviceCidr: string, podCidr: string, publicIp: string,
    machineId: string, clusterToken: string, masterIp: string)

  function Value(vs: Values, p: Placeholder): string
  {
    match p
    case Version => vs.version
    case ServiceCidr => vs.serviceCidr
    case PodCidr => vs.podCidr
    case PublicIp => vs.publicIp
    case MachineId => vs.machineId
    case ClusterToken => vs.clusterToken
    case MasterIp => vs.masterIp
  }

  /** No placeholder token occurs in `s`. */
  predicate TokenFree(s: string)
  {
    forall q: Placeholder :: Occurrences(s, Token(q)) == 0
  }

  predicate ValuesTokenFree(vs: Values)
  {
    forall p: Placeholder :: TokenFree(Value(vs, p))
  }

  /** One line of a template: fixed text, or a shell assignment whose value is a placeholder. */
  datatype Line = Text(s: string) | Assign(variable: string, p: Placeholder)

  function LineText(l: Line): string
  {
    match l
    case Text(s) => s
    case Assign(x, p) => x + "=" + Token(p)
  }

  /** The part of a line that is not a placeholder. */
  function Head(l: Line): string
  {
    match l
    case Text(s) => s
    case Assign(x, _) => x
  }

  /** Lines separated by newlines, the way the Go raw string literal spells the script. */
  function Join(ls: seq<Line>): string
  {
    if |ls| == 0 then ""
    else if |ls| == 1 then LineText(ls[0])
    else LineText(ls[0]) + "\n" + Join(ls[1..])
  }

  /** The placeholders of the assignment lines, top to bottom. */
  function Holes(ls: seq<Line>): seq<Placeholder>
  {
    if |ls| == 0 then []
    else (if ls[0].Assign? then [ls[0].p] else []) + Holes(ls[1..])
  }

  /** No double underscore anywhere outside the placeholders. */
  predicate Clean(ls: seq<Line>)
  {
    forall i | 0 <= i < |ls| :: NoDoubleUnderscore(Head(ls[i]))
  }

  /** Only fixed text. */
  predicate NoHoles(ls: seq<Line>)
  {
    forall i | 0 <= i < |ls| :: ls[i].Text?
  }

  /** No token outside the placeholders: what rendering needs of the lines. */
  predicate Ready(ls: seq<Line>)
  {
    forall i | 0 <= i < |ls| :: TokenFree(Head(ls[i]))
  }

  /** A line written as consecutive chunks. */
  function Concat(cs: seq<string>): (s: string)
    ensures |cs| == 0 ==> s == ""
  {
    if |cs| == 0 then "" else cs[0] + Concat(cs[1..])
  }

  /**
   * A piece of fixed text with an underscore at most in front, and not
   * an underscore alone: chunks like this never form a double underscore,
   * neither inside one nor where two meet.
   */
  predicate Chunk(c: string)
  {
    (forall i | 0 < i < |c| :: c[i] != '_') && (|c| == 1 ==> c[0] != '_')
  }

  lemma {:induction false} ChunksClean(cs: seq<string>)
    requires forall k | 0 <= k < |cs| :: Chunk(cs[k])
    ensures NoDoubleUnderscore(Concat(cs))
    ensures |Concat(cs)| == 0 || Concat(cs)[|Concat(cs)| - 1] != '_'
    decreases |cs|
  {
    if |cs| > 0 {
      var a, b := cs[0], Concat(cs[1..]);
      assert Chunk(a);
      ChunksClean(cs[1..]);
      assert NoDoubleUnderscore(a);
      DoubleFreeAppend(a, b);
      if |b| > 0 {
        assert (a + b)[|a + b| - 1] == b[|b| - 1];
      } else {
        assert a + b == a;
      }
    }
  }

  /** Lines of fixed text, each given as its chunks. */
  function Texts(ss: seq<seq<string>>): (ls: seq<Line>)
    ensures |ls| == |ss| && forall i | 0 <= i < |ss| :: ls[i] == Text(Concat(ss[i]))
  {
    if |ss| == 0 then [] else [Text(Concat(ss[0]))] + Texts(ss[1..])
  }

  /** Every chunk of every line is a `Chunk`. */
  predicate PlainText(ss: seq<seq<string>>)
  {
    forall i, k | 0 <= i < |ss| && 0 <= k < |ss[i]| :: Chunk(ss[i][k])
  }

  lemma TextsClean(ss: seq<seq<string>>)
    requires PlainText(ss)
    ensures Clean(Texts(ss)) && Holes(Texts(ss)) == []
  {
    forall i | 0 <= i < |ss| ensures NoDoubleUnderscore(Head(Texts(ss)[i])) {
      ChunksClean(ss[i]);
    }
    NoHolesEmpty(Texts(ss));
  }

  lemma CleanAppend(a: seq<Line>, b: seq<Line>)
    requires Clean(a) && Clean(b)
    ensures Clean(a + b)
  {
    forall i | 0 <= i < |a + b| ensures NoDoubleUnderscore(Head((a + b)[i])) {
      if i < |a| {
        assert (a + b)[i] == a[i];
      } else {
        assert (a + b)[i] == b[i - |a|];
      }
    }
  }

  lemma {:induction false} HolesAppend(a: seq<Line>, b: seq<Line>)
    ensures Holes(a + b) == Holes(a) + Holes(b)
    decreases |a|
  {
    if |a| == 0 {
      assert a + b == b;
    } else {
      var h := if a[0].Assign? then [a[0].p] else [];
      assert (a + b)[0] == a[0];
      assert (a + b)[1..] == a[1..] + b;
      assert Holes(a + b) == h + Holes(a[1..] + b);
      HolesAppend(a[1..], b);
      assert Holes(a) == h + Holes(a[1..]);
    }
  }

  lemma {:induction false} NoHolesEmpty(ls: seq<Line>)
    requires NoHoles(ls)
    ensures Holes(ls) == []
    decreases |ls|
  {
    if |ls| > 0 {
      NoHolesEmpty(ls[1..]);
    }
  }

  lemma CleanReady(ls: seq<Line>)
    requires Clean(ls)
    ensures Ready(ls)
  {
    forall i, q | 0 <= i < |ls|
      ensures Occurrences(Head(ls[i]), Token(q)) == 0
    {
      TokenShape(q);
      DoubleFreeNoOccurrence(Head(ls[i]), Token(q));
    }
  }

  /** The occurrences of a token in a line come from its placeholder alone. */
  lemma LineOccurrences(l: Line, q: Placeholder)
    requires TokenFree(Head(l))
    ensures Occurrences(LineText(l), Token(q)) == (if l.Assign? && l.p == q then 1 else 0)
  {
    if l.Assign? {
      TokenShape(q);
      assert LineText(l) == l.variable + ['='] + Token(l.p);
      OccurrencesSplit(l.variable, '=', Token(l.p), Token(q));
      TokensDistinct(q, l.p);
    }
  }

  /** The newline after the first line separates its occurrences from those of the rest. */
  lemma JoinSplit(ls: seq<Line>, q: Placeholder)
    requires |ls| > 1
    ensures Occurrences(Join(ls), Token(q)) == Occurrences(LineText(ls[0]), Token(q)) + Occurrences(Join(ls[1..]), Token(q))
  {
    TokenShape(q);
    assert Join(ls) == LineText(ls[0]) + ['\n'] + Join(ls[1..]);
    OccurrencesSplit(LineText(ls[0]), '\n', Join(ls[1..]), Token(q));
  }

  lemma HolesCount(ls: seq<Line>, q: Placeholder)
    requires |ls| > 0
    ensures multiset(Holes(ls))[q] == (if Names(ls[0], q) then 1 else 0) + multiset(Holes(ls[1..]))[q]
  {
    assert Holes(ls) == (if ls[0].Assign? then [ls[0].p] else []) + Holes(ls[1..]);
  }

  /** In lines ready for rendering, each token occurs once per assignment that names it. */
  lemma {:induction false} JoinOccurrences(ls: seq<Line>, q: Placeholder)
    requires Ready(ls)
    ensures Occurrences(Join(ls), Token(q)) == multiset(Holes(ls))[q]
    decreases |ls|
  {
    if |ls| > 0 {
      LineOccurrences(ls[0], q);
      HolesCount(ls, q);
      if |ls| == 1 {
        assert Holes(ls[1..]) == [];
      } else {
        JoinSplit(ls, q);
        ReadyTail(ls);
        JoinOccurrences(ls[1..], q);
      }
    }
  }

  /** `l` assigns placeholder `p`. */
  predicate Names(l: Line, p: Placeholder)
  {
    l.Assign? && l.p == p
  }

  /** The first assignment of `p`, if any, takes the value `v`. */
  function FillFirst(ls: seq<Line>, p: Placeholder, v: string): seq<Line>
  {
    if |ls| == 0 then []
    else if Names(ls[0], p) then [Text(ls[0].variable + "=" + v)] + ls[1..]
    else [ls[0]] + FillFirst(ls[1..], p, v)
  }

  lemma ReadyTail(ls: seq<Line>)
    requires Ready(ls) && |ls| > 0
    ensures Ready(ls[1..])
  {
    forall i | 0 <= i < |ls[1..]| ensures TokenFree(Head(ls[1..][i])) {
      assert ls[1..][i] == ls[i + 1];
    }
  }

  /** The replacement lands on an assignment of the token when nothing before it carries one. */
  lemma ReplaceAtAssignment(x: string, p: Placeholder, rest: string, v: string)
    requires TokenFree(x)
    ensures ReplaceOnce(x + "=" + Token(p) + rest, Token(p), v) == x + "=" + v + rest
  {
    TokenShape(p);
    var t := Token(p);
    assert x + "=" + t + rest == x + ['='] + (t + rest);
    ReplaceOnceSkip(x, '=', t + rest, t, v);
    ReplaceOnceAtStart(t, rest, v);
    assert x + ['='] + (v + rest) == x + "=" + v + rest;
  }

  /** A line that does not assign the token is passed over. */
  lemma ReplacePastLine(l: Line, rest: string, p: Placeholder, v: string)
    requires TokenFree(Head(l)) && !Names(l, p)
    ensures ReplaceOnce(LineText(l) + "\n" + rest, Token(p), v) == LineText(l) + "\n" + ReplaceOnce(rest, Token(p), v)
  {
    TokenShape(p);
    LineOccurrences(l, p);
    assert LineText(l) + "\n" + rest == LineText(l) + ['\n'] + rest;
    ReplaceOnceSkip(LineText(l), '\n', rest, Token(p), v);
  }

  lemma JoinCons(l: Line, rest: seq<Line>)
    requires |rest| > 0
    ensures Join([l] + rest) == LineText(l) + "\n" + Join(rest)
  {
    assert ([l] + rest)[1..] == rest;
  }

  lemma FillAtHead(ls: seq<Line>, p: Placeholder, v: string)
    requires |ls| > 1 && Names(ls[0], p) && TokenFree(ls[0].variable)
    ensures ReplaceOnce(Join(ls), Token(p), v) == Join(FillFirst(ls, p, v))
  {
    var x, tail := ls[0].variable, Join(ls[1..]);
    assert Join(ls) == x + "=" + Token(p) + ("\n" + tail);
    ReplaceAtAssignment(x, p, "\n" + tail, v);
    assert x + "=" + v + ("\n" + tail) == (x + "=" + v) + "\n" + tail;
    assert FillFirst(ls, p, v) == [Text(x + "=" + v)] + ls[1..];
    JoinCons(Text(x + "=" + v), ls[1..]);
  }

  /** One first-occurrence replacement of a token is filling its first assignment. */
  lemma {:induction false} ReplaceOnceFills(ls: seq<Line>, p: Placeholder, v: string)
    requires Ready(ls)
    ensures ReplaceOnce(Join(ls), Token(p), v) == Join(FillFirst(ls, p, v))
    decreases |ls|
  {
    if |ls| == 1 {
      if Names(ls[0], p) {
        ReplaceAtAssignment(ls[0].variable, p, "", v);
        assert ls[0].variable + "=" + Token(p) + "" == Join(ls);
      } else {
        TokenShape(p);
        LineOccurrences(ls[0], p);
        ReplaceOnceAbsent(LineText(ls[0]), Token(p), v);
      }
    } else if |ls| > 1 {
      assert ls == [ls[0]] + ls[1..];
      JoinCons(ls[0], ls[1..]);
      if Names(ls[0], p) {
        FillAtHead(ls, p, v);
      } else {
        ReplacePastLine(ls[0], Join(ls[1..]), p, v);
        ReadyTail(ls);
        ReplaceOnceFills(ls[1..], p, v);
        FillFirstLength(ls[1..], p, v);
        assert FillFirst(ls, p, v) == [ls[0]] + FillFirst(ls[1..], p, v);
        JoinCons(ls[0], FillFirst(ls[1..], p, v));
      }
    }
  }

  lemma {:induction false} FillFirstLength(ls: seq<Line>, p: Placeholder, v: string)
    ensures |FillFirst(ls, p, v)| == |ls|
    decreases |ls|
  {
    if |ls| > 0 && !Names(ls[0], p) {
      FillFirstLength(ls[1..], p, v);
    }
  }

  /** A filled assignment carries no token when its value carries none. */
  lemma FilledTokenFree(x: string, v: string)
    requires TokenFree(x) && TokenFree(v)
    ensures TokenFree(x + "=" + v)
  {
    forall q: Placeholder ensures Occurrences(x + "=" + v, Token(q)) == 0 {
      TokenShape(q);
      assert x + "=" + v == x + ['='] + v;
      OccurrencesSplit(x, '=', v, Token(q));
    }
  }

  /** Lines with every listed placeholder filled by its value. */
  function FillOnly(ls: seq<Line>, filled: set<Placeholder>, vs: Values): (r: seq<Line>)
    ensures |r| == |ls|
    ensures forall i | 0 <= i < |ls| ::
      r[i] == (if ls[i].Assign? && ls[i].p in filled
               then Text(ls[i].variable + "=" + Value(vs, ls[i].p)) else ls[i])
  {
    if |ls| == 0 then []
    else
      (if ls[0].Assign? && ls[0].p in filled
       then [Text(ls[0].variable + "=" + Value(vs, ls[0].p))] else [ls[0]])
      + FillOnly(ls[1..], filled, vs)
  }

  const AllPlaceholders: set<Placeholder> := set p: Placeholder | true

  /** The template with every placeholder filled: the intended rendering. */
  function FillAll(ls: seq<Line>, vs: Values): seq<Line>
  {
    FillOnly(ls, AllPlaceholders, vs)
  }

  /** Fill the placeholders of `order` one after another, each at its first assignment. */
  function FillInOrder(ls: seq<Line>, order: seq<Placeholder>, vs: Values): seq<Line>
    decreases |order|
  {
    if |order| == 0 then ls
    else FillInOrder(FillFirst(ls, order[0], Value(vs, order[0])), order[1..], vs)
  }

  /** Apply first-occurrence replacement for each placeholder of `order`, in turn. */
  function ReplaceInOrder(s: string, order: seq<Placeholder>, vs: Values): string
    decreases |order|
  {
    if |order| == 0 then s
    else ReplaceInOrder(ReplaceOnce(s, Token(order[0]), Value(vs, order[0])), order[1..], vs)
  }

  /** The seven replacements of postCreate. */
  function Render(template: string, vs: Values): string
  {
    ReplaceInOrder(template, SubstitutionOrder, vs)
  }

  lemma {:induction false} FillFirstReady(ls: seq<Line>, p: Placeholder, v: string)
    requires Ready(ls) && TokenFree(v)
    ensures Ready(FillFirst(ls, p, v))
    decreases |ls|
  {
    FillFirstLength(ls, p, v);
    if |ls| > 0 {
      var r := FillFirst(ls, p, v);
      if Names(ls[0], p) {
        FilledTokenFree(ls[0].variable, v);
        assert forall i | 1 <= i < |r| :: r[i] == ls[i];
      } else {
        assert Ready(ls[1..]) by {
          forall i | 0 <= i < |ls[1..]| ensures TokenFree(Head(ls[1..][i])) {
            assert ls[1..][i] == ls[i + 1];
          }
        }
        FillFirstReady(ls[1..], p, v);
        assert forall i | 1 <= i < |r| :: r[i] == FillFirst(ls[1..], p, v)[i - 1];
      }
      assert forall i | 0 <= i < |r| :: TokenFree(Head(r[i]));
    }
  }

  /** Replacing token after token is filling assignment after assignment. */
  lemma {:induction false} ReplaceInOrderFills(ls: seq<Line>, order: seq<Placeholder>, vs: Values)
    requires Ready(ls) && ValuesTokenFree(vs)
    ensures ReplaceInOrder(Join(ls), order, vs) == Join(FillInOrder(ls, order, vs))
    decreases |order|
  {
    if |order| > 0 {
      var p := order[0];
      ReplaceOnceFills(ls, p, Value(vs, p));
      FillFirstReady(ls, p, Value(vs, p));
      ReplaceInOrderFills(FillFirst(ls, p, Value(vs, p)), order[1..], vs);
    }
  }

  /** Each placeholder names at most one assignment. */
  predicate AtMostOnce(ls: seq<Line>)
  {
    forall p: Placeholder :: multiset(Holes(ls))[p] <= 1
  }

  /** When `p` has at most one assignment, filling the first is filling all of them. */
  lemma {:induction false} FillFirstIsFillOnly(ls: seq<Line>, p: Placeholder, vs: Values)
    requires multiset(Holes(ls))[p] <= 1
    ensures FillFirst(ls, p, Value(vs, p)) == FillOnly(ls, {p}, vs)
    decreases |ls|
  {
    if |ls| > 0 {
      var h := if ls[0].Assign? then [ls[0].p] else [];
      assert Holes(ls) == h + Holes(ls[1..]);
      if Names(ls[0], p) {
        assert multiset(Holes(ls[1..]))[p] == 0;
        NoAssignmentUnfilled(ls[1..], p, vs);
      } else {
        FillFirstIsFillOnly(ls[1..], p, vs);
      }
    }
  }

  lemma {:induction false} NoAssignmentUnfilled(ls: seq<Line>, p: Placeholder, vs: Values)
    requires multiset(Holes(ls))[p] == 0
    ensures FillOnly(ls, {p}, vs) == ls
    decreases |ls|
  {
    if |ls| > 0 {
      var h := if ls[0].Assign? then [ls[0].p] else [];
      assert Holes(ls) == h + Holes(ls[1..]);
      NoAssignmentUnfilled(ls[1..], p, vs);
    }
  }

  /** Filling `a` and then `b` is filling both at once. */
  lemma FillOnlyCompose(ls: seq<Line>, a: set<Placeholder>, b: set<Placeholder>, vs: Values)
    ensures FillOnly(FillOnly(ls, a, vs), b, vs) == FillOnly(ls, a + b, vs)
  {
  }

  lemma {:induction false} FillOnlyHoles(ls: seq<Line>, filled: set<Placeholder>, vs: Values)
    ensures forall p :: multiset(Holes(FillOnly(ls, filled, vs)))[p] <= multiset(Holes(ls))[p]
    decreases |ls|
  {
    if |ls| > 0 {
      var r := FillOnly(ls, filled, vs);
      assert r[1..] == FillOnly(ls[1..], filled, vs);
      FillOnlyHoles(ls[1..], filled, vs);
      assert Holes(ls) == (if ls[0].Assign? then [ls[0].p] else []) + Holes(ls[1..]);
      assert Holes(r) == (if r[0].Assign? then [r[0].p] else []) + Holes(r[1..]);
    }
  }

  /** With at most one assignment per placeholder, the ordered fill fills exactly the placeholders listed. */
  lemma {:induction false} FillInOrderIsFillOnly(ls: seq<Line>, order: seq<Placeholder>, vs: Values)
    requires AtMostOnce(ls)
    ensures FillInOrder(ls, order, vs) == FillOnly(ls, (set p | p in order), vs)
    decreases |order|
  {
    if |order| == 0 {
      assert FillOnly(ls, {}, vs) == ls;
    } else {
      var p := order[0];
      FillFirstIsFillOnly(ls, p, vs);
      var ls' := FillOnly(ls, {p}, vs);
      FillOnlyHoles(ls, {p}, vs);
      FillInOrderIsFillOnly(ls', order[1..], vs);
      FillOnlyCompose(ls, {p}, (set q | q in order[1..]), vs);
      ElementsCons(order);
    }
  }

  lemma ElementsCons(order: seq<Placeholder>)
    requires |order| > 0
    ensures {order[0]} + (set q | q in order[1..]) == set q | q in order
  {
    assert order == [order[0]] + order[1..];
  }

  /** The substitution order mentions every placeholder. */
  lemma OrderCoversAll()
    ensures (set p | p in SubstitutionOrder) == AllPlaceholders
  {
    forall p: Placeholder ensures p in SubstitutionOrder {
      match p
      case Version => assert SubstitutionOrder[0] == p;
      case ServiceCidr => assert SubstitutionOrder[1] == p;
      case PodCidr => assert SubstitutionOrder[2] == p;
      case PublicIp => assert SubstitutionOrder[3] == p;
      case MachineId => assert SubstitutionOrder[4] == p;
      case ClusterToken => assert SubstitutionOrder[5] == p;
      case MasterIp => assert SubstitutionOrder[6] == p;
    }
  }

  /** Filling every placeholder with token-free values leaves token-free text only. */
  lemma FillAllDone(ls: seq<Line>, vs: Values)
    requires Ready(ls) && ValuesTokenFree(vs)
    ensures Ready(FillAll(ls, vs)) && Holes(FillAll(ls, vs)) == []
  {
    var r := FillAll(ls, vs);
    forall i | 0 <= i < |r| ensures TokenFree(Head(r[i])) && r[i].Text? {
      if ls[i].Assign? {
        FilledTokenFree(ls[i].variable, Value(vs, ls[i].p));
      }
    }
    NoHolesEmpty(r);
  }

  /**
   * Rendering a template whose placeholders each name at most one
   * assignment, with values that carry no token, fills every assignment
   * with its value and leaves no token behind.
   */
  lemma RenderFillsAll(ls: seq<Line>, vs: Values)
    requires Ready(ls) && AtMostOnce(ls) && ValuesTokenFree(vs)
    ensures Render(Join(ls), vs) == Join(FillAll(ls, vs))
    ensures forall q: Placeholder :: Occurrences(Render(Join(ls), vs), Token(q)) == 0
  {
    ReplaceInOrderFills(ls, SubstitutionOrder, vs);
    FillInOrderIsFillOnly(ls, SubstitutionOrder, vs);
    OrderCoversAll();
    FillAllDone(ls, vs);
    forall q: Placeholder ensures Occurrences(Join(FillAll(ls, vs)), Token(q)) == 0 {
      JoinOccurrences(FillAll(ls, vs), q);
    }
  }

  /** In clean lines each token occurs once per assignment that names it. */
  lemma CleanTokenCounts(ls: seq<Line>, q: Placeholder)
    requires Clean(ls)
    ensures Occurrences(Join(ls), Token(q)) == multiset(Holes(ls))[q]
  {
    CleanReady(ls);
    JoinOccurrences(ls, q);
  }

  /** `RenderFillsAll` for lines without a double underscore outside their placeholders. */
  lemma RenderCleanFillsAll(ls: seq<Line>, vs: Values)
    requires Clean(ls) && AtMostOnce(ls) && ValuesTokenFree(vs)
    ensures Render(Join(ls), vs) == Join(FillAll(ls, vs))
    ensures TokenFree(Render(Join(ls), vs))
  {
    CleanReady(ls);
    RenderFillsAll(ls, vs);
  }
}
