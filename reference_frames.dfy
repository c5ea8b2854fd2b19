/** Reference frames for a simulation: a frame owns a time axis stored as one
    sample sequence; its start time, end time and number of points are read
    from that sequence, and setting any of them rebuilds the whole sequence
    as evenly spaced points. A rotating frame adds a fixed frequency. */
module ReferenceFrames {
  import opened Spacing
  import TimeAxis
  import Rotation

  class ReferenceFrame {
    var timeList: seq<real>

    /** A frame with the default time axis `[0, 0]`. */
    constructor Default()
      ensures timeList == [0.0, 0.0]
      ensures StartTime() == 0.0 && EndTime() == 0.0 && NumberOfPoints() == 2
    {
      timeList := [0.0, 0.0];
    }

    /** A frame whose time axis is the given samples, as given. */
    constructor (timeList: seq<real>)
      ensures this.timeList == timeList
    {
      this.timeList := timeList;
    }

    /** The first sample; reading it changes nothing. */
    function StartTime(): (t: real)
      reads this
      requires |timeList| >= 1
      ensures t == timeList[0]
    {
      TimeAxis.Start(timeList)
    }

    /** The last sample; reading it changes nothing. */
    function EndTime(): (t: real)
      reads this
      requires |timeList| >= 1
      ensures t == timeList[|timeList| - 1]
    {
      TimeAxis.End(timeList)
    }

    /** The number of samples, defined on every axis, the empty one too. */
    function NumberOfPoints(): (n: nat)
      reads this
      ensures n == |timeList|
    {
      TimeAxis.Count(timeList)
    }

    /** Rebuilds the axis with the same number of points from `newStartTime`
        to the current end. */
    method SetStartTime(newStartTime: real)
      requires |timeList| >= 1
      modifies this
      ensures timeList == Linspace(newStartTime, old(EndTime()), old(NumberOfPoints()))
      ensures timeList == TimeAxis.WithStart(old(timeList), newStartTime)
      ensures StartTime() == newStartTime
      ensures NumberOfPoints() == old(NumberOfPoints())
      ensures old(NumberOfPoints()) >= 2 ==> EndTime() == old(EndTime())
      ensures EvenlySpaced(timeList)
    {
      var timeArray := TimeAxis.WithStart(timeList, newStartTime);
      timeList := timeArray;
    }

    /** Rebuilds the axis with the same number of points from the current
        start to `newEndTime`. */
    method SetEndTime(newEndTime: real)
      requires |timeList| >= 1
      modifies this
      ensures timeList == Linspace(old(StartTime()), newEndTime, old(NumberOfPoints()))
      ensures timeList == TimeAxis.WithEnd(old(timeList), newEndTime)
      ensures StartTime() == old(StartTime())
      ensures NumberOfPoints() == old(NumberOfPoints())
      ensures old(NumberOfPoints()) >= 2 ==> EndTime() == newEndTime
      ensures EvenlySpaced(timeList)
    {
      var timeArray := TimeAxis.WithEnd(timeList, newEndTime);
      timeList := timeArray;
    }

    /** Rebuilds the axis with `newNumberOfPoints` points from the current
        start to the current end. */
    method SetNumberOfPoints(newNumberOfPoints: nat)
      requires |timeList| >= 1
      modifies this
      ensures timeList == Linspace(old(StartTime()), old(EndTime()), newNumberOfPoints)
      ensures timeList == TimeAxis.WithCount(old(timeList), newNumberOfPoints)
      ensures NumberOfPoints() == newNumberOfPoints
      ensures newNumberOfPoints >= 1 ==> StartTime() == old(StartTime())
      ensures newNumberOfPoints >= 2 ==> EndTime() == old(EndTime())
      ensures EvenlySpaced(timeList)
    {
      var timeArray := TimeAxis.WithCount(timeList, newNumberOfPoints);
      timeList := timeArray;
    }
  }

  /** A frame rotating at a fixed frequency. Its time axis is a reference
      frame it owns, created with the default axis. */
  class RotatingFrame {
    const frame: ReferenceFrame
    var frequency: real

    constructor (frequency: real)
      ensures this.frequency == frequency
      ensures fresh(frame) && frame.timeList == [0.0, 0.0]
    {
      this.frequency := frequency;
      frame := new ReferenceFrame.Default();
    }

    /** The rotation operator at `time`, given the cosine and sine functions
        to evaluate at `frequency * time`: the matrix
        `[[cos, sin], [-sin, cos]]` of that angle. */
    function RotationOperator(cos: real -> real, sin: real -> real, time: real): (r: Rotation.Matrix)
      reads this
      ensures r == Rotation.Matrix(Rotation.Real(cos(frequency * time)), Rotation.Real(sin(frequency * time)),
                                   Rotation.Real(-sin(frequency * time)), Rotation.Real(cos(frequency * time)))
    {
      Rotation.Operator(cos(frequency * time), sin(frequency * time))
    }
  }

  /** The default axis, then 1000 points, start 0 and end 1e-7, gives the
      same samples as `Linspace(0, 1e-7, 1000)`. */
  method DefaultThenSetAll() returns (samples: seq<real>)
    ensures samples == Linspace(0.0, 1e-7, 1000)
  {
    var f := new ReferenceFrame.Default();
    f.SetNumberOfPoints(1000);
    f.SetStartTime(0.0);
    f.SetEndTime(1e-7);
    samples := f.timeList;
  }

  /** A frame over `Linspace(0, 1e-7, 1000)`: its views are 0, 1e-7 and
      1000, and setting each in turn gives the expected rebuilt axis. */
  method SettersFromTestAxis() returns (afterStart: seq<real>, afterEnd: seq<real>, afterCount: seq<real>)
    ensures afterStart == Linspace(1.0, 1e-7, 1000)
    ensures afterEnd == Linspace(0.0, 1.0, 1000)
    ensures afterCount == Linspace(0.0, 1e-7, 10000)
  {
    var axis := Linspace(0.0, 1e-7, 1000);
    var f := new ReferenceFrame(axis);
    assert f.StartTime() == 0.0 && f.EndTime() == 1e-7 && f.NumberOfPoints() == 1000;
    f.SetStartTime(1.0);
    afterStart := f.timeList;

    f := new ReferenceFrame(axis);
    f.SetEndTime(1.0);
    afterEnd := f.timeList;

    f := new ReferenceFrame(axis);
    f.SetNumberOfPoints(10000);
    afterCount := f.timeList;
  }
}
