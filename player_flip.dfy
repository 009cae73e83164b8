/**
  The sprite-flipping player controller (CHARACTER/Scripts/PlayerController.cs):
  keyboard axes, a left/right sprite flip that follows the horizontal input,
  and a death handler that switches the controller off.

  Unity calls `Update` and `FixedUpdate` only while the component is enabled;
  the model writes that gate out. The smoothing step (`SmoothDamp`) is not
  modelled: its result is a parameter of `FixedUpdate`.
 */
module SpriteFlipPlayer {
  import opened Geometry
  import opened HealthProtocol
  import opened PlayerInput

  const FacingLeft: Vec3 := Vec3(-1.0, 1.0, 1.0)
  const FacingRight: Vec3 := Vec3(1.0, 1.0, 1.0)

  class PlayerController {
    const health: Health
    var enabled: bool
    var moveInput: Axes
    var velocity: Vec2
    var localScale: Vec3

    /** `Awake`: subscribe the death handler to the player's Health, once. */
    constructor (health: Health, localScale: Vec3)
      modifies health
      ensures this.health == health && enabled && moveInput == NoInput
      ensures velocity == Zero && this.localScale == localScale
      ensures health.deathListeners == old(health.deathListeners) + [this]
      ensures health.currentHealth == old(health.currentHealth) && health.events == old(health.events)
    {
      this.health := health;
      enabled := true;
      moveInput := NoInput;
      velocity := Zero;
      this.localScale := localScale;
      new;
      health.SubscribeDeath(this);
    }

    /** One frame of input, run only while enabled. */
    method Update(keyboardPresent: bool, keys: KeyState)
      modifies this`moveInput
      ensures moveInput == if enabled && keyboardPresent then KeyAxes(keys) else old(moveInput)
    {
      if enabled {
        HandleInput(keyboardPresent, keys);
      }
    }

    /** Without a keyboard the previous input is kept. */
    method HandleInput(keyboardPresent: bool, keys: KeyState)
      modifies this`moveInput
      ensures moveInput == if keyboardPresent then KeyAxes(keys) else old(moveInput)
    {
      if keyboardPresent {
        moveInput := ReadAxes(keys);
      }
    }

    /** One physics step, run only while enabled; `smoothed` is the smoothing step's result. */
    method FixedUpdate(smoothed: Vec2)
      modifies this`velocity, this`localScale
      ensures !enabled ==> velocity == old(velocity) && localScale == old(localScale)
      ensures enabled ==> velocity == smoothed
      ensures enabled && moveInput.x < 0 ==> localScale == FacingLeft
      ensures enabled && moveInput.x > 0 ==> localScale == FacingRight
      ensures enabled && moveInput.x == 0 ==> localScale == old(localScale)
    {
      if enabled {
        Move(smoothed);
      }
    }

    /** Face left for leftward input, right for rightward input, keep facing otherwise. */
    method Move(smoothed: Vec2)
      modifies this`velocity, this`localScale
      ensures velocity == smoothed
      ensures moveInput.x < 0 ==> localScale == FacingLeft
      ensures moveInput.x > 0 ==> localScale == FacingRight
      ensures moveInput.x == 0 ==> localScale == old(localScale)
    {
      velocity := smoothed;
      if moveInput.x < 0 {
        localScale := FacingLeft;
      } else if moveInput.x > 0 {
        localScale := FacingRight;
      }
    }

    /** Switch the controller off and stop the body. */
    method HandleDeath()
      modifies this`enabled, this`velocity
      ensures !enabled && velocity == Zero
    {
      enabled := false;
      velocity := Zero;
    }
  }
}
