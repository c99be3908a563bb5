/** The questionnaire's data: the option values each question offers, the
    answers record the funnel fills in, and the functional list rebuild
    behind the multi-select "dificuldades" question. */
module Answers {

  datatype Option<T> = None | Some(value: T)

  /** Question 1, scalp oiliness ("muito-oleoso", "oleoso", "normal", "seco"). */
  datatype Oleosidade = MuitoOleoso | Oleoso | Normal | Seco

  /** Question 2, frequency of chemical treatments ("frequente", "ocasional", "raro", "nunca"). */
  datatype Quimica = Frequente | Ocasional | Raro | Nunca

  /** Question 3, current state of the strands ("saudaveis", "ressecados", "quebradiços", "mistos"). */
  datatype EstadoFios = Saudaveis | Ressecados | Quebradicos | Mistos

  /** Question 4, the difficulties ("frizz", "queda", "pontas", "ressecamento", "oleosidade", "caspa"). */
  datatype Dificuldade = Frizz | Queda | Pontas | Ressecamento | OleosidadeExcessiva | Caspa

  /** The answers record. An unanswered question holds the empty string in the
      source and None here; the difficulties are kept in the order chosen. */
  datatype QuizAnswers = QuizAnswers(
    oleosidade: Option<Oleosidade>,
    quimica: Option<Quimica>,
    estadoFios: Option<EstadoFios>,
    dificuldades: seq<Dificuldade>)

  /** The record every session starts from and a restart returns to. */
  function EmptyAnswers(): (a: QuizAnswers)
  {
    QuizAnswers(None, None, None, [])
  }

  /** A value offered by one of the three single-choice questions. */
  datatype Choice = Oil(o: Oleosidade) | Chemistry(q: Quimica) | Strands(e: EstadoFios)

  /** The index of the question whose radio group offers the choice. */
  function QuestionOf(c: Choice): (i: nat)
  {
    match c
    case Oil(_) => 0
    case Chemistry(_) => 1
    case Strands(_) => 2
  }

  /** Whether question `i` (0, 1 or 2) has been answered. */
  predicate Answered(a: QuizAnswers, i: nat)
  {
    if i == 0 then a.oleosidade.Some?
    else if i == 1 then a.quimica.Some?
    else if i == 2 then a.estadoFios.Some?
    else false
  }

  /** Whether `a` holds the choice `c` as the answer to its question. */
  predicate Holds(a: QuizAnswers, c: Choice)
  {
    match c
    case Oil(o) => a.oleosidade == Some(o)
    case Chemistry(q) => a.quimica == Some(q)
    case Strands(e) => a.estadoFios == Some(e)
  }

  /** Whether `a` and `b` agree on question `i`. */
  predicate SameAnswer(a: QuizAnswers, b: QuizAnswers, i: nat)
  {
    if i == 0 then a.oleosidade == b.oleosidade
    else if i == 1 then a.quimica == b.quimica
    else if i == 2 then a.estadoFios == b.estadoFios
    else true
  }

  /** The answers record with the field of the choice's question set to it,
      as the spread-and-override at the answer handler does: that question
      is answered with `c`, every other answer and the difficulties are kept. */
  function SetAnswer(a: QuizAnswers, c: Choice): (r: QuizAnswers)
    ensures Holds(r, c) && Answered(r, QuestionOf(c))
    ensures forall i :: 0 <= i < 3 && i != QuestionOf(c) ==> SameAnswer(r, a, i)
    ensures forall i :: 0 <= i < 3 && i != QuestionOf(c) ==> (Answered(r, i) <==> Answered(a, i))
    ensures r.dificuldades == a.dificuldades
  {
    match c
    case Oil(o) => a.(oleosidade := Some(o))
    case Chemistry(q) => a.(quimica := Some(q))
    case Strands(e) => a.(estadoFios := Some(e))
  }

  /** No value occurs twice. */
  predicate NoDuplicates(s: seq<Dificuldade>)
  {
    forall i, j :: 0 <= i < j < |s| ==> s[i] != s[j]
  }

  /** `s` without any occurrence of `v`, the order of the rest kept
      (the `filter` in the toggle handler). */
  function Remove(s: seq<Dificuldade>, v: Dificuldade): (r: seq<Dificuldade>)
    ensures multiset(r) == multiset(s)[v := 0]
    ensures v !in r
    ensures forall x :: x in r <==> x in s && x != v
  {
    if s == [] then []
    else if s[0] == v then
      assert s == [s[0]] + s[1..];
      Remove(s[1..], v)
    else
      assert s == [s[0]] + s[1..];
      [s[0]] + Remove(s[1..], v)
  }

  /** Select `v` if it is not selected yet (appended at the end), deselect it
      otherwise. */
  function Toggle(s: seq<Dificuldade>, v: Dificuldade): (r: seq<Dificuldade>)
    ensures forall x :: x in r <==> (x in s <==> x != v)
    ensures v in s ==> multiset(r) == multiset(s)[v := 0]
    ensures v !in s ==> |r| == |s| + 1 && r[..|s|] == s && r[|s|] == v
  {
    if v in s then Remove(s, v) else s + [v]
  }

  /** Removing a value that is absent changes nothing. */
  lemma {:induction false} RemoveAbsent(s: seq<Dificuldade>, v: Dificuldade)
    requires v !in s
    ensures Remove(s, v) == s
  {
    if s != [] {
      RemoveAbsent(s[1..], v);
    }
  }

  /** Filtering keeps the elements in their order, so it keeps them distinct. */
  lemma {:induction false} RemoveKeepsNoDuplicates(s: seq<Dificuldade>, v: Dificuldade)
    requires NoDuplicates(s)
    ensures NoDuplicates(Remove(s, v))
  {
    if s != [] {
      assert NoDuplicates(s[1..]) by {
        forall i, j | 0 <= i < j < |s[1..]| ensures s[1..][i] != s[1..][j] {
          assert s[1..][i] == s[i + 1] && s[1..][j] == s[j + 1];
        }
      }
      RemoveKeepsNoDuplicates(s[1..], v);
      if s[0] != v {
        var t := Remove(s[1..], v);
        assert s[0] !in t by {
          assert forall k :: 1 <= k < |s| ==> s[0] != s[k];
          assert s[0] !in s[1..];
        }
        assert Remove(s, v) == [s[0]] + t;
      }
    }
  }

  /** Toggling never introduces a duplicate. */
  lemma ToggleKeepsNoDuplicates(s: seq<Dificuldade>, v: Dificuldade)
    requires NoDuplicates(s)
    ensures NoDuplicates(Toggle(s, v))
  {
    if v in s {
      RemoveKeepsNoDuplicates(s, v);
    }
  }

  /** Toggling the same value twice restores the selection: exactly when the
      value was not selected, and up to order (as a multiset) when it was,
      because the re-selected value moves to the end. */
  lemma ToggleTwice(s: seq<Dificuldade>, v: Dificuldade)
    requires NoDuplicates(s)
    ensures multiset(Toggle(Toggle(s, v), v)) == multiset(s)
    ensures v !in s ==> Toggle(Toggle(s, v), v) == s
  {
    if v in s {
      var r := Remove(s, v);
      assert v !in r;
      assert Toggle(Toggle(s, v), v) == r + [v];
      var i :| 0 <= i < |s| && s[i] == v;
      assert multiset(s)[v] == 1 by {
        OccursOnce(s, i);
      }
      assert multiset(r + [v]) == multiset(r) + multiset{v};
    } else {
      var t := s + [v];
      assert Toggle(s, v) == t;
      assert v in t;
      RemoveAppended(s, v);
    }
  }

  /** In a sequence without duplicates, the value at index `i` occurs once. */
  lemma {:induction false} OccursOnce(s: seq<Dificuldade>, i: nat)
    requires NoDuplicates(s) && i < |s|
    ensures multiset(s)[s[i]] == 1
  {
    var v := s[i];
    var front, back := s[..i], s[i + 1..];
    assert s == front + [v] + back;
    assert v !in front by {
      assert forall k :: 0 <= k < |front| ==> front[k] == s[k];
    }
    assert v !in back by {
      assert forall k :: 0 <= k < |back| ==> back[k] == s[i + 1 + k];
    }
    assert multiset(s) == multiset(front) + multiset{v} + multiset(back);
  }

  /** Appending an absent value and filtering it out again gives the original. */
  lemma RemoveAppended(s: seq<Dificuldade>, v: Dificuldade)
    requires v !in s
    ensures Remove(s + [v], v) == s
  {
    RemoveOverConcat(s, [v], v);
    RemoveAbsent(s, v);
    assert Remove([v], v) == [];
    assert s + [] == s;
  }

  /** Filtering distributes over concatenation. */
  lemma {:induction false} RemoveOverConcat(s: seq<Dificuldade>, t: seq<Dificuldade>, v: Dificuldade)
    ensures Remove(s + t, v) == Remove(s, v) + Remove(t, v)
  {
    if s == [] {
      assert s + t == t;
    } else {
      assert (s + t)[0] == s[0];
      assert (s + t)[1..] == s[1..] + t;
      RemoveOverConcat(s[1..], t, v);
    }
  }
}
