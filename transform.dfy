/** The transform every scene object carries: a position, a rotation
    quaternion and a per-axis scale, changed in place. Rotation composition
    and the local-to-world mapping are not part of this model. */
module Transform {
  import opened Conversions

  /** The identity rotation, (w, x, y, z) = (1, 0, 0, 0). */
  const IDENTITY: GlmQuat := GlmQuat(1.0, 0.0, 0.0, 0.0)

  /** `a += b` on `glm::vec3`. */
  function Plus(a: GlmVec3, b: GlmVec3): GlmVec3
  {
    GlmVec3(a.x + b.x, a.y + b.y, a.z + b.z)
  }

  /** Component-wise product. */
  function Times(a: GlmVec3, b: GlmVec3): GlmVec3
  {
    GlmVec3(a.x * b.x, a.y * b.y, a.z * b.z)
  }

  function Negated(a: GlmVec3): GlmVec3
  {
    GlmVec3(-a.x, -a.y, -a.z)
  }

  class Object {
    var pos: GlmVec3
    var rot: GlmQuat
    var scal: GlmVec3

    /** At the origin, unrotated, at unit scale. */
    constructor ()
      ensures pos == GlmVec3(0.0, 0.0, 0.0) && rot == IDENTITY && scal == GlmVec3(1.0, 1.0, 1.0)
    {
      pos := GlmVec3(0.0, 0.0, 0.0);
      rot := IDENTITY;
      scal := GlmVec3(1.0, 1.0, 1.0);
    }

    constructor FromGlm(p: GlmVec3, r: GlmQuat, s: GlmVec3)
      ensures pos == p && rot == r && scal == s
    {
      pos := p;
      rot := r;
      scal := s;
    }

    /** From the physics engine's types, component for component. */
    constructor FromPx(p: PxVec3, r: PxQuat, s: PxVec3)
      ensures pos == FromPxVec(p) && rot == FromPxQuat(r) && scal == FromPxVec(s)
      ensures FromGLMVec(pos) == p && FromGLMQuat(rot) == r && FromGLMVec(scal) == s
    {
      pos := FromPxVec(p);
      rot := FromPxQuat(r);
      scal := FromPxVec(s);
      new;
      VecRoundTrips(p, pos);
      VecRoundTrips(s, scal);
      QuatRoundTrips(r, rot, AiQuat(0.0, 0.0, 0.0, 0.0));
    }

    method Move(amt: GlmVec3)
      modifies this
      ensures pos == Plus(old(pos), amt) && rot == old(rot) && scal == old(scal)
    {
      pos := Plus(pos, amt);
    }

    method Scale(amt: GlmVec3)
      modifies this
      ensures scal == Times(old(scal), amt) && pos == old(pos) && rot == old(rot)
    {
      scal := GlmVec3(scal.x * amt.x, scal.y, scal.z);
      scal := scal.(y := scal.y * amt.y);
      scal := scal.(z := scal.z * amt.z);
    }

    method SetPosition(val: GlmVec3)
      modifies this
      ensures pos == val && rot == old(rot) && scal == old(scal)
    {
      pos := val;
    }

    method SetRotation(val: GlmQuat)
      modifies this
      ensures rot == val && pos == old(pos) && scal == old(scal)
    {
      rot := val;
    }

    method SetScale(val: GlmVec3)
      modifies this
      ensures scal == val && pos == old(pos) && rot == old(rot)
    {
      scal := GlmVec3(val.x, scal.y, scal.z);
      scal := scal.(y := val.y);
      scal := scal.(z := val.z);
    }

    method GetPosition() returns (p: GlmVec3)
      ensures p == pos
    {
      p := pos;
    }

    method GetRotation() returns (r: GlmQuat)
      ensures r == rot
    {
      r := rot;
    }

    method GetScale() returns (s: GlmVec3)
      ensures s == scal
    {
      s := scal;
    }
  }

  /** A client: moving by an amount and then by its negation, or scaling
      by unit factors, leaves the object where it was; a setter followed by
      the matching getter reads back the value set. */
  method TransformRoundTrips(o: Object, amt: GlmVec3, q: GlmQuat) returns (back: GlmQuat)
    modifies o
    ensures back == q
    ensures o.pos == old(o.pos) && o.scal == old(o.scal) && o.rot == q
  {
    o.Move(amt);
    o.Move(Negated(amt));
    o.Scale(GlmVec3(1.0, 1.0, 1.0));
    o.SetRotation(q);
    back := o.GetRotation();
  }
}
