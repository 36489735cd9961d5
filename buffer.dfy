/**
  The nested output buffer of buffer.go.

  A `Segment` is one `bytes.Buffer`: a growable text that only ever grows. A
  `Buffer` writes into its current segment, keeps the enclosing segments on a
  stack (`Setmark` pushes, `Backmark` pops and appends the popped text to its
  parent), and records popped segments by group number for backreferences.
  Segments are objects, as in Go: a recorded capture IS the popped segment, and
  the invariant `Valid` shows that nothing writes to it afterwards.
 */
module Buffers {
  import opened Runes

  /** `bytes.Buffer`, with its bytes read back as the characters they encode. */
  class Segment {
    var text: string

    constructor ()
      ensures text == []
    {
      text := [];
    }

    /** `bytes.Buffer.WriteRune`. */
    method WriteRune(r: Rune)
      modifies this
      ensures text == old(text) + [Written(r)]
    {
      text := text + [Written(r)];
    }

    /** `bytes.Buffer.Write`: takes everything and never fails. */
    method Write(p: string) returns (n: int)
      modifies this
      ensures n == |p| && text == old(text) + p
    {
      text := text + p;
      n := |p|;
    }
  }

  /** The texts of the segments of `segs`, in order. */
  function Texts(segs: seq<Segment>): (ts: seq<string>)
    reads segs
    ensures |ts| == |segs| && forall k :: 0 <= k < |segs| ==> ts[k] == segs[k].text
  {
    if segs == [] then [] else Texts(segs[..|segs| - 1]) + [segs[|segs| - 1].text]
  }

  /**
    The ownership part of `Buffer.Valid`: every segment lies in `repr`; the open
    segments (the stack and the current one) are pairwise distinct, and no
    recorded capture is open.
   */
  ghost predicate Owned(cur: Segment, buffers: seq<Segment>, marks: map<int, Segment>, repr: set<object>)
  {
    && cur in repr
    && (forall k :: 0 <= k < |buffers| ==> buffers[k] in repr)
    && (forall i :: i in marks ==> marks[i] in repr)
    && cur !in buffers
    && (forall j, k :: 0 <= j < k < |buffers| ==> buffers[j] != buffers[k])
    && (forall i :: i in marks ==> marks[i] != cur && marks[i] !in buffers)
  }

  /** Pushing the current segment and continuing in a new one keeps the ownership invariant. */
  lemma OwnedPush(cur: Segment, buffers: seq<Segment>, marks: map<int, Segment>, repr: set<object>, segment: Segment)
    requires Owned(cur, buffers, marks, repr) && segment !in repr
    ensures Owned(segment, buffers + [cur], marks, repr + {segment})
  {
    var pushed := buffers + [cur];
    forall j, k | 0 <= j < k < |pushed| ensures pushed[j] != pushed[k] {
      if k == |buffers| {
        assert pushed[j] == buffers[j];
      }
    }
    forall i | i in marks ensures marks[i] !in pushed {
      assert marks[i] !in buffers && marks[i] != cur;
    }
  }

  class Buffer {
    /** The embedded `*bytes.Buffer`: the segment being written. */
    var cur: Segment
    /** `buffers`: the enclosing segments, outermost first. */
    var buffers: seq<Segment>
    /** `marks`: the segments recorded by `Backmark(true, i)`. */
    var marks: map<int, Segment>
    ghost var Repr: set<object>

    /**
      Every segment is owned by this buffer; the open segments (the stack and the
      current one) are pairwise distinct, and no recorded capture is open.
     */
    ghost predicate Valid()
      reads this, Repr
    {
      this in Repr && Owned(cur, buffers, marks, Repr)
    }

    /** The texts of the enclosing segments, outermost first. */
    ghost function Stacked(): seq<string>
      reads this, buffers
    {
      Texts(buffers)
    }

    /** The text of every recorded capture. */
    ghost function Captures(): map<int, string>
      reads this, Repr
      requires Valid()
    {
      map i | i in marks :: marks[i].text
    }

    /** `NewBuffer`: an empty current segment, no enclosing segment, no capture. */
    constructor ()
      ensures Valid() && fresh(Repr)
      ensures fresh(cur) && cur.text == [] && buffers == [] && marks == map[]
    {
      cur := new Segment();
      buffers := [];
      marks := map[];
      Repr := {this, cur};
      assert Texts([]) == [];
    }

    /** `bytes.Buffer.String` on the current segment. */
    function String(): (s: string)
      reads this, cur
      ensures s == cur.text
    {
      cur.text
    }

    /** `WriteRune` on the current segment: only the current text grows; stack and captures are untouched. */
    method WriteRune(r: Rune)
      requires Valid()
      modifies cur
      ensures Valid()
      ensures cur.text == old(cur.text) + [Written(r)]
      ensures Stacked() == old(Stacked()) && Captures() == old(Captures())
    {
      cur.WriteRune(r);
      assert Texts(buffers) == old(Texts(buffers)) by {
        forall k | 0 <= k < |buffers| ensures buffers[k].text == old(buffers[k].text) {
          assert buffers[k] != cur;
        }
      }
      assert Captures() == old(Captures()) by {
        forall i | i in marks ensures marks[i].text == old(marks[i].text) {
          assert marks[i] != cur;
        }
      }
    }

    /**
      `WriteAll`: retry `Write` until all of `p` is taken. The sink is a
      `bytes.Buffer`, which takes everything on the first call, so `p` is
      appended exactly once and the count returned is `len(p)`.
     */
    method WriteAll(p: string) returns (n: int)
      requires Valid()
      modifies cur
      ensures Valid()
      ensures n == |p| && cur.text == old(cur.text) + p
      ensures Stacked() == old(Stacked()) && Captures() == old(Captures())
    {
      n := 0;
      var wrote := false;
      while !wrote || n != |p|
        invariant !wrote ==> n == 0 && cur.text == old(cur.text)
        invariant wrote ==> n == |p| && cur.text == old(cur.text) + p
        invariant forall k :: 0 <= k < |buffers| ==> buffers[k].text == old(buffers[k].text)
        invariant forall i :: i in marks ==> marks[i].text == old(marks[i].text)
        decreases if wrote then 0 else 1
      {
        var i := n - 1;
        if i < 0 {
          i := 0;
        }
        var m := cur.Write(p[i..]);
        n := n + m;
        wrote := true;
      }
      assert Texts(buffers) == old(Texts(buffers));
      assert forall i :: i in marks ==> Captures()[i] == old(Captures())[i];
    }

    /** `Setmark`: push the current segment and continue in a fresh, empty one. */
    method Setmark()
      requires Valid()
      modifies this
      ensures Valid() && fresh(Repr - old(Repr))
      ensures buffers == old(buffers) + [old(cur)] && fresh(cur) && cur.text == []
      ensures marks == old(marks)
      ensures Stacked() == old(Stacked()) + [old(cur.text)] && Captures() == old(Captures())
    {
      var segment := new Segment();
      OwnedPush(cur, buffers, marks, Repr, segment);
      ghost var texts := Texts(buffers);
      buffers := buffers + [cur];
      assert buffers[..|buffers| - 1] == old(buffers);
      assert Texts(buffers) == texts + [old(cur.text)];
      cur := segment;
      Repr := Repr + {cur};
      assert Captures() == old(Captures());
    }

    /**
      `Backmark`: pop the current segment, append its text to its parent, which
      becomes current again, and with `capture` record the popped segment under
      `index`, replacing any earlier one. Go panics on an empty stack. The error
      result of buffer.go is always nil here, since `WriteAll` cannot fail.
     */
    method Backmark(capture: bool, index: int)
      requires Valid() && |buffers| > 0
      modifies this, buffers[|buffers| - 1]
      ensures Valid() && Repr == old(Repr)
      ensures cur == old(buffers[|buffers| - 1]) && buffers == old(buffers[..|buffers| - 1])
      ensures cur.text == old(buffers[|buffers| - 1].text) + old(cur.text)
      ensures marks == if capture then old(marks)[index := old(cur)] else old(marks)
      ensures Stacked() == old(Stacked()[..|buffers| - 1])
      ensures Captures() == if capture then old(Captures())[index := old(cur.text)] else old(Captures())
    {
      var outer := Pop();
      var _ := WriteAll(outer.text);
      if capture {
        marks := marks[index := outer];
        assert Captures() == old(Captures())[index := outer.text];
      }
    }

    /** The stack manipulation of `Backmark`: the parent becomes current again; the popped segment is returned. */
    method Pop() returns (outer: Segment)
      requires Valid() && |buffers| > 0
      modifies this
      ensures Valid() && Repr == old(Repr) && marks == old(marks)
      ensures outer == old(cur) && outer in Repr && outer != cur && outer !in buffers
      ensures forall i :: i in marks ==> marks[i] != outer
      ensures cur == old(buffers[|buffers| - 1]) && buffers == old(buffers[..|buffers| - 1])
      ensures Stacked() == old(Stacked()[..|buffers| - 1]) && Captures() == old(Captures())
    {
      var l := |buffers|;
      outer := cur;
      cur := buffers[l - 1];
      buffers := buffers[..l - 1];
      assert Captures() == old(Captures());
    }

    /** `Getmark`: the segment recorded under `index`, if any. */
    method Getmark(index: int) returns (d: Segment?, ok: bool)
      requires Valid()
      ensures ok <==> index in marks
      ensures ok ==> d == marks[index] && d.text == Captures()[index]
      ensures !ok ==> d == null
    {
      if index in marks {
        d, ok := marks[index], true;
      } else {
        d, ok := null, false;
      }
    }
  }
}
