/** The shuffle -> reveal -> celebrate sequence started by submitting the form.
    The repeating 120 ms interval becomes the `Tick` event, the 800 ms and
    6000 ms timeouts become the `FireworksOn` and `FireworksOff` events, and
    the random frames shown while shuffling come from samples supplied by the
    caller. */
module Reveal {

  import opened Wrappers
  import Lottery

  /** Number of decorative frames shown before the real draw. */
  const MaxShuffles: nat := 10

  /** Six integers in [0,49): what `Math.floor(Math.random() * 49)` yields six
      times over. */
  predicate ValidSamples(samples: seq<int>) {
    |samples| == Lottery.BallCount && forall k :: 0 <= k < |samples| ==> 0 <= samples[k] < Lottery.MaxBall
  }

  /** A decorative frame for the shuffle animation. */
  function RandomBalls(samples: seq<int>): (frame: seq<int>)
    requires ValidSamples(samples)
    ensures Lottery.IsDraw(frame)
    ensures forall k :: 0 <= k < |frame| ==> frame[k] == samples[k] + 1
  {
    seq(Lottery.BallCount, k requires 0 <= k < Lottery.BallCount => samples[k] + 1)
  }

  /** What the page shows: the balls, and the three flags that drive it. */
  datatype View = View(numbers: Option<seq<int>>, loading: bool, submitted: bool, showFireworks: bool)

  /** The component's state. `ticking` says whether the shuffle interval is
      running; `drawName` and `drawBirthday` are the inputs its callback
      captured; the two counters are the celebration timeouts scheduled and
      not yet fired (nothing ever clears them). */
  class LotteryApp {
    var numbers: Option<seq<int>>
    var loading: bool
    var submitted: bool
    var showFireworks: bool
    var ticking: bool
    var shuffleCount: nat
    var drawName: seq<Lottery.CodeUnit>
    var drawBirthday: seq<Lottery.CodeUnit>
    var pendingFireworksOn: nat
    var pendingFireworksOff: nat

    ghost predicate Valid()
      reads this
    {
      ticking == loading &&
      shuffleCount <= MaxShuffles &&
      (loading ==> !submitted && drawName != [] && drawBirthday != []) &&
      (numbers.Some? ==> Lottery.IsDraw(numbers.value)) &&
      (submitted ==> numbers == Some(Lottery.Generate(drawName, drawBirthday)))
    }

    function Observe(): View
      reads this
    {
      View(numbers, loading, submitted, showFireworks)
    }

    constructor ()
      ensures Valid()
      ensures Observe() == View(None, false, false, false)
      ensures !ticking && pendingFireworksOn == 0 && pendingFireworksOff == 0
    {
      numbers := None;
      loading, submitted, showFireworks := false, false, false;
      ticking, shuffleCount := false, 0;
      drawName, drawBirthday := [], [];
      pendingFireworksOn, pendingFireworksOff := 0, 0;
    }

    /** The form's submit handler. The submit button is disabled while
        loading, which is the only guard against starting a second sequence. */
    method Submit(name: seq<Lottery.CodeUnit>, birthday: seq<Lottery.CodeUnit>)
      requires Valid() && !loading
      modifies this
      ensures Valid()
      ensures name == [] || birthday == [] ==> unchanged(this)
      ensures name != [] && birthday != [] ==>
        loading && !submitted && !showFireworks &&
        ticking && shuffleCount == 0 && drawName == name && drawBirthday == birthday &&
        numbers == old(numbers) &&
        pendingFireworksOn == old(pendingFireworksOn) && pendingFireworksOff == old(pendingFireworksOff)
    {
      if name != [] && birthday != [] {
        loading := true;
        submitted := false;
        showFireworks := false;
        shuffleCount := 0;
        drawName, drawBirthday := name, birthday;
        ticking := true;
      }
    }

    /** One firing of the shuffle interval: ten decorative frames, then the
        real draw, which also stops the interval and schedules the
        celebration. */
    method Tick(samples: seq<int>)
      requires Valid() && ticking
      requires ValidSamples(samples)
      modifies this
      ensures Valid()
      ensures drawName == old(drawName) && drawBirthday == old(drawBirthday)
      ensures showFireworks == old(showFireworks) && pendingFireworksOff == old(pendingFireworksOff)
      ensures old(shuffleCount) < MaxShuffles ==>
        numbers == Some(RandomBalls(samples)) && shuffleCount == old(shuffleCount) + 1 &&
        ticking && loading && !submitted && pendingFireworksOn == old(pendingFireworksOn)
      ensures old(shuffleCount) >= MaxShuffles ==>
        numbers == Some(Lottery.Generate(drawName, drawBirthday)) && shuffleCount == old(shuffleCount) &&
        !ticking && !loading && submitted && pendingFireworksOn == old(pendingFireworksOn) + 1
    {
      if shuffleCount >= MaxShuffles {
        ticking := false;
        var drawn := Lottery.GenerateLotteryNumbers(drawName, drawBirthday);
        numbers := Some(drawn);
        loading := false;
        submitted := true;
        pendingFireworksOn := pendingFireworksOn + 1;
      } else {
        numbers := Some(RandomBalls(samples));
        shuffleCount := shuffleCount + 1;
      }
    }

    /** The 800 ms timeout after a reveal: fireworks on, and the 6000 ms
        timeout scheduled. */
    method FireworksOn()
      requires Valid() && pendingFireworksOn > 0
      modifies this
      ensures Valid()
      ensures showFireworks
      ensures pendingFireworksOn == old(pendingFireworksOn) - 1
      ensures pendingFireworksOff == old(pendingFireworksOff) + 1
      ensures numbers == old(numbers) && loading == old(loading) && submitted == old(submitted)
      ensures ticking == old(ticking) && shuffleCount == old(shuffleCount)
      ensures drawName == old(drawName) && drawBirthday == old(drawBirthday)
    {
      showFireworks := true;
      pendingFireworksOn := pendingFireworksOn - 1;
      pendingFireworksOff := pendingFireworksOff + 1;
    }

    /** The 6000 ms timeout: fireworks off. */
    method FireworksOff()
      requires Valid() && pendingFireworksOff > 0
      modifies this
      ensures Valid()
      ensures !showFireworks
      ensures pendingFireworksOff == old(pendingFireworksOff) - 1
      ensures pendingFireworksOn == old(pendingFireworksOn)
      ensures numbers == old(numbers) && loading == old(loading) && submitted == old(submitted)
      ensures ticking == old(ticking) && shuffleCount == old(shuffleCount)
      ensures drawName == old(drawName) && drawBirthday == old(drawBirthday)
    {
      showFireworks := false;
      pendingFireworksOff := pendingFireworksOff - 1;
    }
  }

  /** Six zero samples, for the tick whose samples are not used. */
  const UnusedSamples: seq<int> := [0, 0, 0, 0, 0, 0]

  /** Runs one submit on a fresh page, then every event it schedules in
      order, and returns what the page shows after each event: the submit,
      ten shuffle frames, the reveal, fireworks on, fireworks off. An empty
      input starts nothing. */
  method FullRun(name: seq<Lottery.CodeUnit>, birthday: seq<Lottery.CodeUnit>, samples: seq<seq<int>>)
    returns (views: seq<View>)
    requires |samples| == MaxShuffles
    requires forall i :: 0 <= i < |samples| ==> ValidSamples(samples[i])
    ensures name == [] || birthday == [] ==> views == [View(None, false, false, false)]
    ensures name != [] && birthday != [] ==>
      |views| == MaxShuffles + 4 &&
      views[0] == View(None, true, false, false) &&
      (forall i :: 1 <= i <= MaxShuffles ==> views[i] == View(Some(RandomBalls(samples[i - 1])), true, false, false)) &&
      views[MaxShuffles + 1] == View(Some(Lottery.Generate(name, birthday)), false, true, false) &&
      views[MaxShuffles + 2] == View(Some(Lottery.Generate(name, birthday)), false, true, true) &&
      views[MaxShuffles + 3] == View(Some(Lottery.Generate(name, birthday)), false, true, false)
  {
    var app := new LotteryApp();
    app.Submit(name, birthday);
    views := [app.Observe()];
    if name == [] || birthday == [] {
      return;
    }
    for t := 0 to MaxShuffles + 1
      invariant app.Valid()
      invariant app.drawName == name && app.drawBirthday == birthday
      invariant !app.showFireworks && app.pendingFireworksOff == 0
      invariant t <= MaxShuffles ==> app.ticking && app.shuffleCount == t && app.pendingFireworksOn == 0
      invariant t > MaxShuffles ==> !app.ticking && app.pendingFireworksOn == 1
      invariant |views| == t + 1
      invariant views[0] == View(None, true, false, false)
      invariant forall i :: 1 <= i <= t && i <= MaxShuffles ==>
                  views[i] == View(Some(RandomBalls(samples[i - 1])), true, false, false)
      invariant t > MaxShuffles ==> views[t] == app.Observe() == View(Some(Lottery.Generate(name, birthday)), false, true, false)
    {
      app.Tick(if t < MaxShuffles then samples[t] else UnusedSamples);
      views := views + [app.Observe()];
    }
    app.FireworksOn();
    views := views + [app.Observe()];
    app.FireworksOff();
    views := views + [app.Observe()];
  }

  /** Nothing cancels the celebration timeouts: a second submit made after the
      reveal but before the 800 ms timeout has fired is shuffling when that
      timeout turns the fireworks on. */
  method ResubmitBeforeCelebration(name: seq<Lottery.CodeUnit>, birthday: seq<Lottery.CodeUnit>,
                                   name': seq<Lottery.CodeUnit>, birthday': seq<Lottery.CodeUnit>)
    returns (view: View)
    requires name != [] && birthday != [] && name' != [] && birthday' != []
    ensures view.loading && !view.submitted && view.showFireworks
  {
    var app := new LotteryApp();
    app.Submit(name, birthday);
    for t := 0 to MaxShuffles + 1
      invariant app.Valid()
      invariant t <= MaxShuffles ==> app.ticking && app.shuffleCount == t && app.pendingFireworksOn == 0
      invariant t > MaxShuffles ==> !app.ticking && app.pendingFireworksOn == 1
    {
      app.Tick(UnusedSamples);
    }
    app.Submit(name', birthday');
    app.FireworksOn();
    view := app.Observe();
  }
}
