/**
 The fixed-capacity sliding window that every gaze chart keeps: each new
 sample is pushed at the end and, once the buffer holds more than
 MaxPoints samples, the oldest one is shifted off the front.

 Slide is one update step exactly as the chart code performs it; Window is
 the buffer obtained by sliding a whole history of samples into an empty
 buffer; LastN is the independent reference ("the last n samples") that
 Window is proved equal to.
 */
module SlidingWindow {

  /** Largest number of samples a chart buffer keeps (MAX_POINTS). */
  const MaxPoints: nat := 100

  function Min(a: int, b: int): (r: int)
  {
    if a <= b then a else b
  }

  /** One update: push v, then drop the oldest sample if the buffer grew
      past MaxPoints. Only one sample is ever dropped per update. */
  function Slide<T>(buf: seq<T>, v: T): (r: seq<T>)
    ensures |r| > 0 && r[|r| - 1] == v
    ensures |buf| < MaxPoints ==> r == buf + [v]
    ensures |buf| >= MaxPoints ==> r == buf[1..] + [v]
    ensures |buf| <= MaxPoints ==> |r| == Min(|buf| + 1, MaxPoints)
  {
    var pushed := buf + [v];
    if |pushed| > MaxPoints then pushed[1..] else pushed
  }

  /** The last n elements of s, in order (all of s when it is shorter). */
  function LastN<T>(s: seq<T>, n: nat): (r: seq<T>)
    ensures |r| == Min(|s|, n)
    ensures r == s[|s| - |r|..]
  {
    if |s| <= n then s else s[|s| - n..]
  }

  /** The buffer after sliding every sample of h, oldest first, into an
      empty buffer. */
  function Window<T>(h: seq<T>): (r: seq<T>)
    ensures |r| == Min(|h|, MaxPoints)
    ensures h != [] ==> r[|r| - 1] == h[|h| - 1]
  {
    if h == [] then [] else Slide(Window(h[..|h| - 1]), h[|h| - 1])
  }

  /** The window is exactly the last MaxPoints samples appended, in
      append order. */
  lemma {:induction false} WindowIsLastN<T>(h: seq<T>)
    ensures Window(h) == LastN(h, MaxPoints)
  {
    if h != [] {
      var p, v := h[..|h| - 1], h[|h| - 1];
      assert h == p + [v];
      WindowIsLastN(p);
      if |p| >= MaxPoints {
        assert LastN(p, MaxPoints)[1..] + [v] == h[|h| - MaxPoints..];
      }
    }
  }

  /** After MaxPoints + k appends, the first k samples have been evicted
      and the buffer holds the rest in order. */
  lemma WindowAfterOverflow<T>(h: seq<T>, k: nat)
    requires |h| == MaxPoints + k
    ensures Window(h) == h[k..]
  {
    WindowIsLastN(h);
  }

  /** Element i of the window is the sample appended at position
      |h| - |Window(h)| + i of the history. */
  lemma WindowAt<T>(h: seq<T>, i: nat)
    requires i < Min(|h|, MaxPoints)
    ensures Window(h)[i] == h[|h| - Min(|h|, MaxPoints) + i]
  {
    WindowIsLastN(h);
  }
}
