/**
 * The memory layout of `LevelSpriteSheet` (lib/gl.c), which
 * scripts/level/levelSpriteSheet.ts mirrors: 68 descriptors of four floats
 * (16 bytes) each, one after the other from the base pointer, followed by the
 * background animation state.
 *
 * A constant below is the position of a field, or of the first element of an
 * array field, counted in descriptors.
 */
module SheetLayout {
  const DescriptorBytes: nat := 16
  const BackgroundCount: nat := 15
  const BackgroundTextureCount: nat := 8
  const TypeCount: nat := 4
  const FragmentModelCount: nat := 8
  const FragmentTextureCount: nat := 16

  const LevelModel: nat := 0
  const FullTexture: nat := 1
  const FramebufferTexture: nat := 2
  const BackgroundModel: nat := 3
  const BackgroundTexture: nat := 18
  const LevelObjectModel: nat := 26
  const LevelObjectTexture: nat := 27
  const FullViewModel: nat := 31
  const ExplosionBgTexture: nat := 32
  const FadeBgModel: nat := 33
  const FadeBgTexture: nat := 34
  const FadeBgSadTexture: nat := 35
  const FragmentModel: nat := 36
  const FragmentTexture: nat := 44
  const CursorCenterModel: nat := 60
  const CursorCenterTexture: nat := 61
  const CursorTargetModel: nat := 62
  const CursorTargetTexture: nat := 63
  const FaceModel: nat := 64
  const SadFaceTexture: nat := 65
  const HappyFaceTexture: nat := 66
  /** The one descriptor the TypeScript side never assigns. */
  const ClearBackgroundTexture: nat := 67
  const DescriptorCount: nat := 68

  /** The byte address of descriptor k of a sprite sheet at `base`. */
  function Field(base: nat, k: nat): nat {
    base + DescriptorBytes * k
  }

  /** Whether descriptor k is a `GLModelCoordinates` (otherwise it is a `GLTextureCoordinates`). */
  predicate IsModel(k: nat) {
    k == LevelModel || BackgroundModel <= k < BackgroundTexture || k == LevelObjectModel
    || k == FullViewModel || k == FadeBgModel || FragmentModel <= k < FragmentTexture
    || k == CursorCenterModel || k == CursorTargetModel || k == FaceModel
  }

  /** Consecutive fields follow each other without a gap: each field starts where the previous one ends. */
  lemma FieldsAreConsecutive(base: nat, k: nat)
    ensures Field(base, k + 1) == Field(base, k) + DescriptorBytes
    ensures Field(base, k) / 4 == base / 4 + 4 * k
  {
  }
}
