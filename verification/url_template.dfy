/** PHP's `sprintf($template, $arg)` for the URL templates of the Adyen
    service: each template holds a single `%s` conversion and no other `%`. */
module UrlTemplate {

  /** Replaces the first `%s` of `template` with `arg`. */
  function Substitute(template: string, arg: string): (r: string)
    ensures '%' !in template ==> r == template
    ensures |r| >= |template| - 2
    decreases |template|
  {
    if |template| < 2 then template
    else if template[0] == '%' && template[1] == 's' then arg + template[2..]
    else [template[0]] + Substitute(template[1..], arg)
  }

  /** A template made of a `%`-free head, the conversion and any tail expands
      to the head, the argument and the tail: the argument is inserted once,
      in place of the conversion, and nothing else changes. */
  lemma {:induction false} SubstituteSplice(head: string, tail: string, arg: string)
    requires '%' !in head
    ensures Substitute(head + "%s" + tail, arg) == head + arg + tail
  {
    var t := head + "%s" + tail;
    if head == [] {
      assert t == "%s" + tail;
      assert t[2..] == tail;
    } else {
      assert t[0] == head[0];
      assert t[1..] == head[1..] + "%s" + tail;
      SubstituteSplice(head[1..], tail, arg);
      assert [head[0]] + (head[1..] + arg + tail) == head + arg + tail;
    }
  }

  /** Two expansions of the same template around a `%`-free head agree only
      when their arguments do. */
  lemma SubstituteInjective(head: string, tail: string, a1: string, a2: string)
    requires '%' !in head
    requires Substitute(head + "%s" + tail, a1) == Substitute(head + "%s" + tail, a2)
    ensures a1 == a2
  {
    SubstituteSplice(head, tail, a1);
    SubstituteSplice(head, tail, a2);
    var u1 := head + a1 + tail;
    var u2 := head + a2 + tail;
    assert |a1| == |a2| by {
      assert |u1| == |u2|;
    }
    assert a1 == u1[|head|..|head| + |a1|];
    assert a2 == u2[|head|..|head| + |a2|];
  }
}
