/** Putting runs of the channel machine together. */
module ChannelRuns {
  import opened Channel
  import opened Options

  lemma FirstEvent<T, E>(s: State<T, E>, e: Event<T, E>)
    ensures Run(s, [e]) == Step(s, e)
  {
    assert [e][..0] == [];
  }

  lemma Extend<T, E>(s: State<T, E>, es: seq<Event<T, E>>, m: State<T, E>, e: Event<T, E>, t: State<T, E>)
    requires Run(s, es) == Some(m) && Step(m, e) == Some(t)
    ensures Run(s, es + [e]) == Some(t)
  {
    assert (es + [e])[..|es|] == es;
  }

  lemma Before<T, E>(s: State<T, E>, es: seq<Event<T, E>>, t: State<T, E>) returns (m: State<T, E>)
    requires es != [] && Run(s, es) == Some(t)
    ensures Run(s, es[..|es| - 1]) == Some(m) && Step(m, es[|es| - 1]) == Some(t)
  {
    m := Run(s, es[..|es| - 1]).value;
  }

  lemma ExtendBehind<T, E>(s: State<T, E>, es: seq<Event<T, E>>, fs: seq<Event<T, E>>, m: State<T, E>, e: Event<T, E>, t: State<T, E>)
    requires Run(s, es + fs) == Some(m) && Step(m, e) == Some(t)
    ensures Run(s, es + (fs + [e])) == Some(t)
  {
    Extend(s, es + fs, m, e, t);
    assert es + (fs + [e]) == (es + fs) + [e];
  }

  lemma NothingBehind<T, E>(es: seq<Event<T, E>>, fs: seq<Event<T, E>>)
    requires fs == []
    ensures es + fs == es
  {
  }

  lemma LastBehind<T, E>(es: seq<Event<T, E>>, fs: seq<Event<T, E>>)
    requires fs != []
    ensures es + (fs[..|fs| - 1] + [fs[|fs| - 1]]) == es + fs
  {
    assert fs[..|fs| - 1] + [fs[|fs| - 1]] == fs;
  }

  lemma {:induction false} Continue<T, E>(s: State<T, E>, es: seq<Event<T, E>>, m: State<T, E>, fs: seq<Event<T, E>>, t: State<T, E>)
    requires Run(s, es) == Some(m) && Run(m, fs) == Some(t)
    ensures Run(s, es + fs) == Some(t)
    decreases |fs|
  {
    if fs == [] {
      NothingBehind(es, fs);
    } else {
      var front, last := fs[..|fs| - 1], fs[|fs| - 1];
      var m' := Before(m, fs, t);
      Continue(s, es, m, front, m');
      ExtendBehind(s, es, front, m', last, t);
      LastBehind(es, fs);
    }
  }

  lemma Chain2<T, E>(s: State<T, E>, e1: Event<T, E>, s1: State<T, E>, e2: Event<T, E>, s2: State<T, E>)
    requires Step(s, e1) == Some(s1) && Step(s1, e2) == Some(s2)
    ensures Run(s, [e1, e2]) == Some(s2)
  {
    var es: seq<Event<T, E>> := [];
    assert es + [e1] == [e1] && [e1] + [e2] == [e1, e2];
    Extend(s, es, s, e1, s1);
    Extend(s, [e1], s1, e2, s2);
  }

  lemma Chain3<T, E>(s: State<T, E>, e1: Event<T, E>, s1: State<T, E>, e2: Event<T, E>, s2: State<T, E>,
                     e3: Event<T, E>, s3: State<T, E>)
    requires Step(s, e1) == Some(s1) && Step(s1, e2) == Some(s2) && Step(s2, e3) == Some(s3)
    ensures Run(s, [e1, e2, e3]) == Some(s3)
  {
    var es: seq<Event<T, E>> := [];
    assert es + [e1] == [e1] && [e1] + [e2] == [e1, e2] && [e1, e2] + [e3] == [e1, e2, e3];
    Extend(s, es, s, e1, s1);
    Extend(s, [e1], s1, e2, s2);
    Extend(s, [e1, e2], s2, e3, s3);
  }
}
