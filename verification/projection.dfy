/**
 * The cube-face perspective projection (math_functions.py,
 * cube_face_projection_matrix): an OpenGL-style clip-from-eye matrix with a
 * 90 degree field of view, built from the near and far clip distances.
 */
module Projection {
  import opened Errors
  import opened RealArith

  /** Clip distances the projection accepts. */
  predicate ValidClips(near: real, far: real)
  {
    0.0 < near < far
  }

  /**
   * The clip-from-eye matrix in row-major order. Fails first on a
   * non-positive near plane, then on a far plane not beyond it. The frustum
   * is symmetric (left = -near, right = near, bottom = -near, top = near), so
   * a = b = 1 and c = d = 0; the depth row maps the near plane to clip depth
   * -w and the far plane to +w; the last row copies -z into w.
   */
  function CubeFaceProjectionMatrix(near: real, far: real): (r: Result<seq<real>>)
    ensures near <= 0.0 ==> r == Err(ValueError("near must be positive."))
    ensures 0.0 < near && far <= near ==> r == Err(ValueError("far must be greater than near."))
    ensures r.Ok? <==> ValidClips(near, far)
    ensures r.Ok? ==> |r.value| == 16
    ensures r.Ok? ==> r.value[..8] == [1.0, 0.0, 0.0, 0.0, 0.0, 1.0, 0.0, 0.0]
    ensures r.Ok? ==> r.value[8] == 0.0 && r.value[9] == 0.0
    ensures r.Ok? ==> r.value[12..] == [0.0, 0.0, -1.0, 0.0]
    ensures r.Ok? ==> -near * r.value[10] + r.value[11] == -near
    ensures r.Ok? ==> -far * r.value[10] + r.value[11] == far
  {
    if near <= 0.0 then Err(ValueError("near must be positive."))
    else if far <= near then Err(ValueError("far must be greater than near."))
    else
      var left, right, bottom, top := -near, near, -near, near;
      var a := (2.0 * near) / (right - left);
      var b := (2.0 * near) / (top - bottom);
      var c := (right + left) / (right - left);
      var d := (top + bottom) / (top - bottom);
      var e := (near + far) / (near - far);
      var f := (2.0 * near * far) / (near - far);
      assert right - left == 2.0 * near && top - bottom == 2.0 * near;
      DivSelf(2.0 * near);
      assert a == 1.0 && b == 1.0 && c == 0.0 && d == 0.0;
      assert -near * e + f == -near by {
        assert (near - far) * e == near + far;
        assert (near - far) * f == 2.0 * near * far;
        assert (near - far) * (-near * e + f) == (near - far) * -near;
      }
      assert -far * e + f == far by {
        assert (near - far) * e == near + far;
        assert (near - far) * f == 2.0 * near * far;
        assert (near - far) * (-far * e + f) == (near - far) * far;
      }
      Ok([a,   0.0, c,    0.0,
          0.0, b,   d,    0.0,
          0.0, 0.0, e,    f,
          0.0, 0.0, -1.0, 0.0])
  }

  /** Row-major product of a 4x4 matrix and a homogeneous 4-vector. */
  function Transform(m: seq<real>, v: seq<real>): (w: seq<real>)
    requires |m| == 16 && |v| == 4
    ensures |w| == 4
  {
    seq(4, row requires 0 <= row < 4 =>
      m[4 * row] * v[0] + m[4 * row + 1] * v[1] + m[4 * row + 2] * v[2] + m[4 * row + 3] * v[3])
  }

  /** A homogeneous clip-space point inside the canonical view volume. */
  predicate InClipVolume(c: seq<real>)
    requires |c| == 4
  {
    c[3] > 0.0 && -c[3] <= c[0] <= c[3] && -c[3] <= c[1] <= c[3] && -c[3] <= c[2] <= c[3]
  }

  /** The eye-space frustum of one cube face: the 90 degree pyramid between the clip planes. */
  predicate InFaceFrustum(near: real, far: real, x: real, y: real, z: real)
  {
    -far <= z <= -near && z <= x <= -z && z <= y <= -z
  }

  /**
   * The depth row of the projection: given the two plane equations, clip
   * depth lies between -w and w (w = -z) exactly between the clip planes.
   */
  lemma DepthWithinClipRange(near: real, far: real, e: real, f: real, z: real)
    requires ValidClips(near, far)
    requires -near * e + f == -near && -far * e + f == far
    ensures z <= e * z + f <= -z <==> -far <= z <= -near
  {
    // Subtracting the plane equations: (far - near) * (e + 1) = -2 * near < 0.
    assert (far - near) * (e + 1.0) == -2.0 * near;
    assert e + 1.0 < 0.0 by {
      if e + 1.0 >= 0.0 {
        ScaleMonotone(0.0, far - near, e + 1.0);
      }
    }
    // Each bound is linear in z and is met with equality at one clip plane.
    var depth := e * z + f;
    var p, q := 1.0 - e, -(z + near);
    var s, t := -(e + 1.0), z + far;
    assert depth - z == p * q;
    assert -z - depth == s * t;
    if -far <= z <= -near {
      ScaleMonotone(0.0, p, q);
      ScaleMonotone(0.0, s, t);
    }
    if z < -far {
      ProductNegative(s, t);
    }
    if z > -near {
      ProductNegative(p, q);
    }
  }

  /**
   * The projection sends an eye-space point in front of the camera (z < 0)
   * into the canonical clip volume exactly when the point lies in the face's
   * frustum.
   */
  lemma ProjectionMapsFrustumToClipVolume(near: real, far: real, x: real, y: real, z: real)
    requires ValidClips(near, far) && z < 0.0
    ensures var c := Transform(CubeFaceProjectionMatrix(near, far).value, [x, y, z, 1.0]);
      InClipVolume(c) <==> InFaceFrustum(near, far, x, y, z)
  {
    var m := CubeFaceProjectionMatrix(near, far).value;
    ProjectedPoint(near, far, x, y, z);
    DepthWithinClipRange(near, far, m[10], m[11], z);
  }

  /** The projection keeps x and y, puts e * z + f in the depth slot and -z in w. */
  lemma ProjectedPoint(near: real, far: real, x: real, y: real, z: real)
    requires ValidClips(near, far)
    ensures var m := CubeFaceProjectionMatrix(near, far).value;
      var c := Transform(m, [x, y, z, 1.0]);
      c[0] == x && c[1] == y && c[2] == m[10] * z + m[11] && c[3] == -z
  {
    var m := CubeFaceProjectionMatrix(near, far).value;
    var c := Transform(m, [x, y, z, 1.0]);
    assert c[0] == x && c[1] == y && c[3] == -z;
  }

  /** The worked example: near = 1, far = 2 gives depth coefficients e = -3, f = -4. */
  lemma ProjectionExample()
    ensures CubeFaceProjectionMatrix(1.0, 2.0) == Ok([1.0, 0.0, 0.0, 0.0, 0.0, 1.0, 0.0, 0.0, 0.0, 0.0, -3.0, -4.0, 0.0, 0.0, -1.0, 0.0])
    ensures CubeFaceProjectionMatrix(0.0, 2.0).Err? && CubeFaceProjectionMatrix(-1.0, 2.0).Err?
    ensures CubeFaceProjectionMatrix(1.0, 1.0).Err? && CubeFaceProjectionMatrix(1.0, 0.5).Err?
  {
    var m := CubeFaceProjectionMatrix(1.0, 2.0).value;
    assert -1.0 * m[10] + m[11] == -1.0 && -2.0 * m[10] + m[11] == 2.0;
  }
}
