/**
 * The capture operator's manifest logic (capture.py): the headbox taken
 * from the capture box, the order in which the six faces are rendered,
 * and create_view_groups, which describes every rendered view (its
 * cameras and its image files) for the manifest.
 */
module Capture {
  import opened Errors
  import opened Faces
  import opened Projection
  import opened Boxes
  import opened FileNames
  import CameraPositions

  // ---------------------------------------------------------------------
  // The headbox
  // ---------------------------------------------------------------------

  /** headbox_min: the capture box's scale added to its location, per axis. */
  function HeadboxMin(location: seq<real>, scale: seq<real>): (m: seq<real>)
    requires |location| == 3 && |scale| == 3
    ensures |m| == 3
  {
    [scale[0] + location[0], scale[1] + location[1], scale[2] + location[2]]
  }

  /** headbox_max: the capture box's scale subtracted from its location, per axis. */
  function HeadboxMax(location: seq<real>, scale: seq<real>): (m: seq<real>)
    requires |location| == 3 && |scale| == 3
    ensures |m| == 3
  {
    [-scale[0] + location[0], -scale[1] + location[1], -scale[2] + location[2]]
  }

  /** The headbox centre, point_in_a_box(min, max, [0.5, 0.5, 0.5]), is the capture box's location. */
  lemma HeadboxCentreIsLocation(location: seq<real>, scale: seq<real>)
    requires |location| == 3 && |scale| == 3
    ensures CameraPositions.Centre(HeadboxMin(location, scale), HeadboxMax(location, scale)) == location
  {
    BoxCornersAndCentre(HeadboxMin(location, scale), HeadboxMax(location, scale));
  }

  /**
   * The "min" corner lies above the "max" corner on every axis the
   * capture box has a positive scale, and below it on every axis with a
   * negative scale: the bounds are in no fixed order.
   */
  lemma HeadboxOrientation(location: seq<real>, scale: seq<real>)
    requires |location| == 3 && |scale| == 3
    ensures forall i :: 0 <= i < 3 ==>
      (HeadboxMin(location, scale)[i] > HeadboxMax(location, scale)[i] <==> scale[i] > 0.0)
    ensures forall i :: 0 <= i < 3 ==>
      (HeadboxMin(location, scale)[i] < HeadboxMax(location, scale)[i] <==> scale[i] < 0.0)
  {
  }

  /**
   * Every camera position generate_camera_positions produces for this
   * headbox is within |scale| of the location on every axis.
   */
  lemma CameraPositionsNearLocation(location: seq<real>, scale: seq<real>, n: nat)
    requires |location| == 3 && |scale| == 3 && n >= 1
    ensures forall p :: p in CameraPositions.CameraPositions(HeadboxMin(location, scale), HeadboxMax(location, scale), n) ==>
      |p| == 3 && forall i :: 0 <= i < 3 ==>
        location[i] - Abs(scale[i]) <= p[i] <= location[i] + Abs(scale[i])
  {
    var boxMin, boxMax := HeadboxMin(location, scale), HeadboxMax(location, scale);
    var positions := CameraPositions.CameraPositions(boxMin, boxMax, n);
    CameraPositions.CameraPositionsInBox(boxMin, boxMax, n);
    forall p | p in positions
      ensures |p| == 3 && forall i :: 0 <= i < 3 ==>
        location[i] - Abs(scale[i]) <= p[i] <= location[i] + Abs(scale[i])
    {
      assert CameraPositions.InBox(p, boxMin, boxMax);
      forall i | 0 <= i < 3
        ensures location[i] - Abs(scale[i]) <= p[i] <= location[i] + Abs(scale[i])
      {
        BetweenHeadboxBounds(p[i], location[i], scale[i]);
      }
    }
  }

  lemma BetweenHeadboxBounds(x: real, l: real, s: real)
    requires Between(x, s + l, -s + l)
    ensures l - Abs(s) <= x <= l + Abs(s)
  {
  }

  function Abs(x: real): (a: real)
    ensures a >= 0.0 && (a == x || a == -x)
  {
    if x < 0.0 then -x else x
  }

  // ---------------------------------------------------------------------
  // The face order
  // ---------------------------------------------------------------------

  /** The order in which the render loop visits the faces, and create_view_groups lists them. */
  const RenderFaceOrder: seq<Face> := [Front, Back, Left, Right, Bottom, Top]

  /** The face loop visits the six faces by these names, each face exactly once. */
  lemma RenderFaceOrderIsPermutation()
    ensures |RenderFaceOrder| == 6
    ensures seq(6, k requires 0 <= k < 6 => RenderFaceOrder[k].Name())
         == ["front", "back", "left", "right", "bottom", "top"]
    ensures forall face: Face :: face in RenderFaceOrder
    ensures forall k1, k2 :: 0 <= k1 < k2 < 6 ==> RenderFaceOrder[k1] != RenderFaceOrder[k2]
  {
    forall face: Face
      ensures face in RenderFaceOrder
    {
      match face
      case Front => assert RenderFaceOrder[0] == face;
      case Back => assert RenderFaceOrder[1] == face;
      case Left => assert RenderFaceOrder[2] == face;
      case Right => assert RenderFaceOrder[3] == face;
      case Bottom => assert RenderFaceOrder[4] == face;
      case Top => assert RenderFaceOrder[5] == face;
    }
  }

  // ---------------------------------------------------------------------
  // The manifest records
  // ---------------------------------------------------------------------

  /** The 'projective_camera' record of a view. */
  datatype ProjectiveCamera = ProjectiveCamera(
    imageWidth: int,
    imageHeight: int,
    clipFromEyeMatrix: seq<real>,
    worldFromEyeMatrix: seq<real>,
    depthType: string)

  /** The 'color' record of a view's image files. */
  datatype ColorImage = ColorImage(path: string, channel0: string, channel1: string, channel2: string, channelAlpha: string)

  /** The 'depth' record of a view's image files. */
  datatype DepthImage = DepthImage(path: string, channel0: string)

  /** The 'depth_image_file' record of a view. */
  datatype DepthImageFile = DepthImageFile(color: ColorImage, depth: DepthImage)

  datatype View = View(projectiveCamera: ProjectiveCamera, depthImageFile: DepthImageFile)

  /** A view group: the six views rendered from one camera position. */
  datatype ViewGroup = ViewGroup(views: seq<View>)

  // ---------------------------------------------------------------------
  // What create_view_groups builds
  // ---------------------------------------------------------------------

  /** A world-from-eye matrix with its translation column (entries 3, 7, 11) set to t. */
  function PatchTranslation(m: seq<real>, t: seq<real>): (r: seq<real>)
    requires |m| == 16 && |t| >= 3
    ensures |r| == 16
    ensures forall i :: 0 <= i < 3 ==> r[4 * i + 3] == t[i]
    ensures forall j :: 0 <= j < 16 && j != 3 && j != 7 && j != 11 ==> r[j] == m[j]
  {
    m[3 := t[0]][7 := t[1]][11 := t[2]]
  }

  /** The view of one face from one camera position, as the manifest records it. */
  function ViewFor(
    headboxCenter: seq<real>, absolutePosition: seq<real>, index: nat, face: Face,
    imageSize: int, clip: seq<real>, depthType: string, depthChannelName: string,
    colorPattern: PathPattern, depthPattern: PathPattern): (view: View)
    requires |absolutePosition| >= 3 && |headboxCenter| >= 3
    ensures |view.projectiveCamera.worldFromEyeMatrix| == 16
  {
    var position := Differences(absolutePosition, headboxCenter);
    var camera := ProjectiveCamera(imageSize, imageSize, clip,
      PatchTranslation(WorldEyeMatrix(face), position), depthType);
    View(camera, DepthImageFile(
      ColorImage(colorPattern.Format(face.Name(), index), "R", "G", "B", "A"),
      DepthImage(depthPattern.Format(face.Name(), index), depthChannelName)))
  }

  /** The view group of one camera position: its six views in render order. */
  function ViewGroupFor(
    headboxCenter: seq<real>, absolutePosition: seq<real>, index: nat,
    imageSize: int, clip: seq<real>, depthType: string, depthChannelName: string,
    colorPattern: PathPattern, depthPattern: PathPattern): (group: ViewGroup)
    requires |absolutePosition| >= 3 && |headboxCenter| >= 3
    ensures |group.views| == 6
  {
    ViewGroup(seq(6, k requires 0 <= k < 6 =>
      ViewFor(headboxCenter, absolutePosition, index, RenderFaceOrder[k],
              imageSize, clip, depthType, depthChannelName, colorPattern, depthPattern)))
  }

  /** Every camera position and the headbox centre have at least three coordinates. */
  predicate WellFormedPositions(headboxCenter: seq<real>, cameraPositions: seq<seq<real>>)
  {
    forall p :: p in cameraPositions ==> |p| >= 3 && |headboxCenter| >= 3
  }

  /** The view groups of all camera positions, numbered in input order. */
  function ViewGroupsFor(
    headboxCenter: seq<real>, cameraPositions: seq<seq<real>>,
    imageSize: int, clip: seq<real>, depthType: string, depthChannelName: string,
    colorPattern: PathPattern, depthPattern: PathPattern): (groups: seq<ViewGroup>)
    requires WellFormedPositions(headboxCenter, cameraPositions)
    ensures |groups| == |cameraPositions|
  {
    seq(|cameraPositions|, g requires 0 <= g < |cameraPositions| =>
      ViewGroupFor(headboxCenter, cameraPositions[g], g,
                   imageSize, clip, depthType, depthChannelName, colorPattern, depthPattern))
  }

  // ---------------------------------------------------------------------
  // create_view_groups
  // ---------------------------------------------------------------------

  /** The positions up to any point of a well-formed list are well formed. */
  lemma WellFormedPrefix(headboxCenter: seq<real>, cameraPositions: seq<seq<real>>, g: nat)
    requires g <= |cameraPositions| && WellFormedPositions(headboxCenter, cameraPositions)
    ensures WellFormedPositions(headboxCenter, cameraPositions[..g])
  {
    forall p | p in cameraPositions[..g]
      ensures |p| >= 3 && |headboxCenter| >= 3
    {
      var i :| 0 <= i < g && cameraPositions[..g][i] == p;
      assert cameraPositions[i] in cameraPositions;
    }
  }

  /** The view groups of one more camera position: the old ones and the group of the new position. */
  lemma ViewGroupsForStep(
    headboxCenter: seq<real>, cameraPositions: seq<seq<real>>, g: nat,
    imageSize: int, clip: seq<real>, depthType: string, depthChannelName: string,
    colorPattern: PathPattern, depthPattern: PathPattern)
    requires g < |cameraPositions| && WellFormedPositions(headboxCenter, cameraPositions)
    ensures WellFormedPositions(headboxCenter, cameraPositions[..g])
    ensures WellFormedPositions(headboxCenter, cameraPositions[..g + 1])
    ensures ViewGroupsFor(headboxCenter, cameraPositions[..g + 1],
              imageSize, clip, depthType, depthChannelName, colorPattern, depthPattern)
         == ViewGroupsFor(headboxCenter, cameraPositions[..g],
              imageSize, clip, depthType, depthChannelName, colorPattern, depthPattern)
            + [ViewGroupFor(headboxCenter, cameraPositions[g], g,
              imageSize, clip, depthType, depthChannelName, colorPattern, depthPattern)]
  {
    WellFormedPrefix(headboxCenter, cameraPositions, g);
    WellFormedPrefix(headboxCenter, cameraPositions, g + 1);
    var before := ViewGroupsFor(headboxCenter, cameraPositions[..g],
      imageSize, clip, depthType, depthChannelName, colorPattern, depthPattern);
    var after := ViewGroupsFor(headboxCenter, cameraPositions[..g + 1],
      imageSize, clip, depthType, depthChannelName, colorPattern, depthPattern);
    var last := ViewGroupFor(headboxCenter, cameraPositions[g], g,
      imageSize, clip, depthType, depthChannelName, colorPattern, depthPattern);
    forall k | 0 <= k < g
      ensures after[k] == before[k]
    {
      assert cameraPositions[..g + 1][k] == cameraPositions[..g][k];
    }
    assert cameraPositions[..g + 1][g] == cameraPositions[g];
    assert after[g] == last;
    assert after == before + [last];
  }

  /** The loop `for i in range(3): world_from_eye_matrix[4 * i + 3] = position[i]`. */
  method SetTranslation(m: seq<real>, position: seq<real>) returns (patched: seq<real>)
    requires |m| == 16 && |position| >= 3
    ensures patched == PatchTranslation(m, position)
  {
    patched := m;
    for i := 0 to 3
      invariant |patched| == 16
      invariant forall j :: 0 <= j < 16 ==>
        patched[j] == if j % 4 == 3 && j / 4 < i then position[j / 4] else m[j]
    {
      patched := patched[4 * i + 3 := position[i]];
    }
    assert forall j :: 0 <= j < 16 ==> patched[j] == PatchTranslation(m, position)[j];
  }

  /**
   * The body of the face loop once the projection is known: the face's
   * matrix, moved to the camera's offset from the headbox centre, and the
   * view record around it.
   */
  method CreateView(
    headboxCenter: seq<real>, absolutePosition: seq<real>, index: nat, face: Face,
    imageSize: int, clip: seq<real>, depthType: string, depthChannelName: string,
    colorPattern: PathPattern, depthPattern: PathPattern) returns (view: View)
    requires |absolutePosition| >= 3 && |headboxCenter| >= 3
    ensures view == ViewFor(headboxCenter, absolutePosition, index, face, imageSize, clip,
                            depthType, depthChannelName, colorPattern, depthPattern)
  {
    var position := Differences(absolutePosition, headboxCenter);
    var worldFromEyeMatrix := WorldEyeMatrixFromName(face.Name());
    assert worldFromEyeMatrix == Ok(WorldEyeMatrix(face));
    var patched := SetTranslation(worldFromEyeMatrix.value, position);
    var camera := ProjectiveCamera(imageSize, imageSize, clip, patched, depthType);
    var colorImagePath := colorPattern.Format(face.Name(), index);
    var depthImagePath := depthPattern.Format(face.Name(), index);
    view := View(camera, DepthImageFile(
      ColorImage(colorImagePath, "R", "G", "B", "A"),
      DepthImage(depthImagePath, depthChannelName)));
  }

  /**
   * The inner loop of create_view_groups: the six views of one camera
   * position. The projection matrix is computed for every face, so an
   * invalid clip range raises on the first one.
   */
  method CreateViews(
    headboxCenter: seq<real>, absolutePosition: seq<real>, index: nat,
    imageSize: int, nearClip: real, farClip: real, depthType: string, depthChannelName: string,
    colorPattern: PathPattern, depthPattern: PathPattern) returns (r: Result<seq<View>>)
    requires ValidClips(nearClip, farClip) ==> |absolutePosition| >= 3 && |headboxCenter| >= 3
    ensures r.Err? <==> !ValidClips(nearClip, farClip)
    ensures r.Err? ==> r.error == CubeFaceProjectionMatrix(nearClip, farClip).error
    ensures r.Ok? ==> r.value == ViewGroupFor(headboxCenter, absolutePosition, index, imageSize,
      CubeFaceProjectionMatrix(nearClip, farClip).value, depthType, depthChannelName, colorPattern, depthPattern).views
  {
    var views: seq<View> := [];
    ghost var projection := CubeFaceProjectionMatrix(nearClip, farClip);
    ghost var clip := if projection.Ok? then projection.value else [];
    for k := 0 to 6
      invariant |views| == k
      invariant k > 0 ==> ValidClips(nearClip, farClip)
      invariant forall j :: 0 <= j < k ==> views[j] == ViewFor(headboxCenter, absolutePosition, index,
        RenderFaceOrder[j], imageSize, clip, depthType, depthChannelName, colorPattern, depthPattern)
    {
      var face := RenderFaceOrder[k];
      var clipFromEyeMatrix := CubeFaceProjectionMatrix(nearClip, farClip);
      if clipFromEyeMatrix.Err? {
        return Err(clipFromEyeMatrix.error);
      }
      var view := CreateView(headboxCenter, absolutePosition, index, face, imageSize,
        clipFromEyeMatrix.value, depthType, depthChannelName, colorPattern, depthPattern);
      views := views + [view];
    }
    r := Ok(views);
  }

  /**
   * create_view_groups: one view group per camera position, in input
   * order. It raises the projection's ValueError when there is at least
   * one position and the clip range is invalid; with no positions it
   * returns an empty list whatever the clip range.
   */
  method CreateViewGroups(
    headboxCenter: seq<real>, cameraPositions: seq<seq<real>>,
    imageSize: int, nearClip: real, farClip: real, depthType: string, depthChannelName: string,
    colorPattern: PathPattern, depthPattern: PathPattern) returns (r: Result<seq<ViewGroup>>)
    requires ValidClips(nearClip, farClip) ==> WellFormedPositions(headboxCenter, cameraPositions)
    ensures r.Err? <==> |cameraPositions| > 0 && !ValidClips(nearClip, farClip)
    ensures r.Err? ==> r.error == CubeFaceProjectionMatrix(nearClip, farClip).error
    ensures |cameraPositions| == 0 ==> r == Ok([])
    ensures r.Ok? && |cameraPositions| > 0 ==>
      r.value == ViewGroupsFor(headboxCenter, cameraPositions, imageSize,
        CubeFaceProjectionMatrix(nearClip, farClip).value, depthType, depthChannelName, colorPattern, depthPattern)
  {
    var viewGroups: seq<ViewGroup> := [];
    ghost var projection := CubeFaceProjectionMatrix(nearClip, farClip);
    ghost var clip := if projection.Ok? then projection.value else [];
    for g := 0 to |cameraPositions|
      invariant |viewGroups| == g
      invariant g > 0 ==> ValidClips(nearClip, farClip)
      invariant g > 0 ==> WellFormedPositions(headboxCenter, cameraPositions[..g])
      invariant g > 0 ==> viewGroups == ViewGroupsFor(headboxCenter, cameraPositions[..g],
        imageSize, clip, depthType, depthChannelName, colorPattern, depthPattern)
    {
      var views := CreateViews(headboxCenter, cameraPositions[g], g, imageSize, nearClip, farClip,
                               depthType, depthChannelName, colorPattern, depthPattern);
      if views.Err? {
        return Err(views.error);
      }
      ViewGroupsForStep(headboxCenter, cameraPositions, g,
        imageSize, clip, depthType, depthChannelName, colorPattern, depthPattern);
      viewGroups := viewGroups + [ViewGroup(views.value)];
    }
    assert cameraPositions[..|cameraPositions|] == cameraPositions;
    r := Ok(viewGroups);
  }

  // ---------------------------------------------------------------------
  // Properties of the manifest
  // ---------------------------------------------------------------------

  /**
   * The world-from-eye matrix of every view is its face's matrix with the
   * camera's offset from the headbox centre in entries 3, 7 and 11 and
   * nothing else changed; in particular it is still a proper rotation
   * followed by that translation.
   */
  lemma ViewMatrixIsFaceMatrixMovedToPosition(
    headboxCenter: seq<real>, absolutePosition: seq<real>, index: nat, face: Face,
    imageSize: int, clip: seq<real>, depthType: string, depthChannelName: string,
    colorPattern: PathPattern, depthPattern: PathPattern)
    requires |absolutePosition| >= 3 && |headboxCenter| >= 3
    ensures var m := ViewFor(headboxCenter, absolutePosition, index, face, imageSize, clip,
                             depthType, depthChannelName, colorPattern, depthPattern).projectiveCamera.worldFromEyeMatrix;
      |m| == 16
      && (forall i :: 0 <= i < 3 ==> m[4 * i + 3] == absolutePosition[i] - headboxCenter[i])
      && (forall j :: 0 <= j < 16 && j != 3 && j != 7 && j != 11 ==> m[j] == WorldEyeMatrix(face)[j])
      && IsProperRotation(m)
  {
    var w := WorldEyeMatrix(face);
    var m := PatchTranslation(w, Differences(absolutePosition, headboxCenter));
    assert ViewFor(headboxCenter, absolutePosition, index, face, imageSize, clip,
                   depthType, depthChannelName, colorPattern, depthPattern).projectiveCamera.worldFromEyeMatrix == m;
    FaceMatrixIsRotation(face);
    RotationIgnoresTranslation(w, m);
  }

  /** Whether a matrix is a proper rotation depends only on its upper-left 3x3 block. */
  lemma RotationIgnoresTranslation(w: seq<real>, m: seq<real>)
    requires |w| == 16 && |m| == 16 && IsProperRotation(w)
    requires forall j :: 0 <= j < 11 && j % 4 != 3 ==> m[j] == w[j]
    ensures IsProperRotation(m)
  {
    assert Block(m) == Block(w);
  }

  /**
   * View k of group g is the render of face RenderFaceOrder[k] from
   * camera position g: every view shares the one projection matrix, both
   * image sides are image_size, depth_type and the depth channel are
   * passed through, and the colour channels are R, G, B, A.
   */
  lemma ManifestViewSettings(
    headboxCenter: seq<real>, cameraPositions: seq<seq<real>>,
    imageSize: int, clip: seq<real>, depthType: string, depthChannelName: string,
    colorPattern: PathPattern, depthPattern: PathPattern, g: nat, k: nat)
    requires WellFormedPositions(headboxCenter, cameraPositions)
    requires g < |cameraPositions| && k < 6
    ensures var groups := ViewGroupsFor(headboxCenter, cameraPositions, imageSize, clip,
                                        depthType, depthChannelName, colorPattern, depthPattern);
      var view := groups[g].views[k];
      |groups[g].views| == 6
      && view.projectiveCamera.clipFromEyeMatrix == clip
      && view.projectiveCamera.imageWidth == imageSize == view.projectiveCamera.imageHeight
      && view.projectiveCamera.depthType == depthType
      && view.depthImageFile.color.path == colorPattern.Format(RenderFaceOrder[k].Name(), g)
      && view.depthImageFile.depth.path == depthPattern.Format(RenderFaceOrder[k].Name(), g)
      && view.depthImageFile.color.channel0 == "R" && view.depthImageFile.color.channel1 == "G"
      && view.depthImageFile.color.channel2 == "B" && view.depthImageFile.color.channelAlpha == "A"
      && view.depthImageFile.depth.channel0 == depthChannelName
  {
    assert cameraPositions[g] in cameraPositions;
  }

  /**
   * With the patterns the capture operator passes, the manifest names
   * exactly the files rename_renders produced for view group g and face k,
   * once the output directory is put in front.
   */
  lemma ManifestNamesRenderedFiles(
    outputPath: string, headboxCenter: seq<real>, cameraPositions: seq<seq<real>>,
    imageSize: int, clip: seq<real>, depthType: string, depthChannelName: string, g: nat, k: nat)
    requires WellFormedPositions(headboxCenter, cameraPositions)
    requires g < |cameraPositions| && k < 6
    ensures var files := ViewGroupsFor(headboxCenter, cameraPositions, imageSize, clip,
                                       depthType, depthChannelName, DefaultColorPattern, DefaultDepthPattern)[g].views[k].depthImageFile;
      outputPath + files.color.path == ColorFileName(outputPath, g, RenderFaceOrder[k].Name())
      && outputPath + files.depth.path == DepthFileName(outputPath, g, RenderFaceOrder[k].Name())
  {
    ManifestViewSettings(headboxCenter, cameraPositions, imageSize, clip, depthType, depthChannelName,
                         DefaultColorPattern, DefaultDepthPattern, g, k);
    DefaultPatternsMatchRenames(outputPath, g, RenderFaceOrder[k].Name());
  }

  /**
   * No two views of the manifest share a colour image or a depth image,
   * whatever the two patterns are.
   */
  lemma ManifestPathsDistinct(
    headboxCenter: seq<real>, cameraPositions: seq<seq<real>>,
    imageSize: int, clip: seq<real>, depthType: string, depthChannelName: string,
    colorPattern: PathPattern, depthPattern: PathPattern, g1: nat, k1: nat, g2: nat, k2: nat)
    requires WellFormedPositions(headboxCenter, cameraPositions)
    requires g1 < |cameraPositions| && k1 < 6 && g2 < |cameraPositions| && k2 < 6
    requires (g1, k1) != (g2, k2)
    ensures var groups := ViewGroupsFor(headboxCenter, cameraPositions, imageSize, clip,
                                        depthType, depthChannelName, colorPattern, depthPattern);
      groups[g1].views[k1].depthImageFile.color.path != groups[g2].views[k2].depthImageFile.color.path
      && groups[g1].views[k1].depthImageFile.depth.path != groups[g2].views[k2].depthImageFile.depth.path
  {
    ManifestViewSettings(headboxCenter, cameraPositions, imageSize, clip, depthType, depthChannelName,
                         colorPattern, depthPattern, g1, k1);
    ManifestViewSettings(headboxCenter, cameraPositions, imageSize, clip, depthType, depthChannelName,
                         colorPattern, depthPattern, g2, k2);
    var face1, face2 := RenderFaceOrder[k1], RenderFaceOrder[k2];
    RenderFaceOrderIsPermutation();
    assert (face1, g1) != (face2, g2);
    PathsDistinct(colorPattern, face1, g1, face2, g2);
    PathsDistinct(depthPattern, face1, g1, face2, g2);
  }

  lemma PathsDistinct(p: PathPattern, face1: Face, index1: nat, face2: Face, index2: nat)
    requires (face1, index1) != (face2, index2)
    ensures p.Format(face1.Name(), index1) != p.Format(face2.Name(), index2)
  {
    if p.Format(face1.Name(), index1) == p.Format(face2.Name(), index2) {
      DistinctViewsGetDistinctPaths(p, face1, index1, face2, index2);
      assert false;
    }
  }

  /**
   * For the positions generate_camera_positions returns and the headbox
   * centre, the first view group sits at the centre: all six of its views
   * have zero translation.
   */
  lemma FirstViewGroupAtCentre(
    boxMin: seq<real>, boxMax: seq<real>, n: nat,
    imageSize: int, clip: seq<real>, depthType: string, depthChannelName: string,
    colorPattern: PathPattern, depthPattern: PathPattern, k: nat)
    requires |boxMin| == 3 && |boxMax| == 3 && n >= 1 && k < 6
    ensures var centre := CameraPositions.Centre(boxMin, boxMax);
      var positions := CameraPositions.CameraPositions(boxMin, boxMax, n);
      WellFormedPositions(centre, positions)
      && var m := ViewGroupsFor(centre, positions, imageSize, clip, depthType, depthChannelName,
                                colorPattern, depthPattern)[0].views[k].projectiveCamera.worldFromEyeMatrix;
         |m| == 16 && m[3] == 0.0 && m[7] == 0.0 && m[11] == 0.0
  {
    var centre := CameraPositions.Centre(boxMin, boxMax);
    var positions := CameraPositions.CameraPositions(boxMin, boxMax, n);
    CameraPositions.CameraPositionsInBox(boxMin, boxMax, n);
    assert WellFormedPositions(centre, positions);
    ViewMatrixIsFaceMatrixMovedToPosition(centre, positions[0], 0, RenderFaceOrder[k], imageSize, clip,
                                          depthType, depthChannelName, colorPattern, depthPattern);
  }

  /**
   * For a capture box at `location`, every view's translation is the
   * camera position relative to that location.
   */
  lemma TranslationRelativeToCaptureBox(
    location: seq<real>, scale: seq<real>, cameraPositions: seq<seq<real>>,
    imageSize: int, clip: seq<real>, depthType: string, depthChannelName: string,
    colorPattern: PathPattern, depthPattern: PathPattern, g: nat, k: nat)
    requires |location| == 3 && |scale| == 3
    requires forall p :: p in cameraPositions ==> |p| >= 3
    requires g < |cameraPositions| && k < 6
    ensures var centre := CameraPositions.Centre(HeadboxMin(location, scale), HeadboxMax(location, scale));
      WellFormedPositions(centre, cameraPositions)
      && var m := ViewGroupsFor(centre, cameraPositions, imageSize, clip, depthType, depthChannelName,
                                colorPattern, depthPattern)[g].views[k].projectiveCamera.worldFromEyeMatrix;
         |m| == 16 && forall i :: 0 <= i < 3 ==> m[4 * i + 3] == cameraPositions[g][i] - location[i]
  {
    HeadboxCentreIsLocation(location, scale);
    assert cameraPositions[g] in cameraPositions;
    ViewMatrixIsFaceMatrixMovedToPosition(location, cameraPositions[g], g, RenderFaceOrder[k], imageSize, clip,
                                          depthType, depthChannelName, colorPattern, depthPattern);
  }
}
