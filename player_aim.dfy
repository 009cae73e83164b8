/**
  The mouse-aiming player controller (Scripts/PlayerController.cs): keyboard
  axes, rotation toward the mouse when a camera and a mouse are available,
  and a death handler that switches the controller off.

  Unity calls `Update` and `FixedUpdate` only while the component is enabled;
  the model writes that gate out. The smoothing step and the angle toward
  the mouse (`Atan2` in degrees minus 90) are parameters.
 */
module MouseAimPlayer {
  import opened Geometry
  import opened HealthProtocol
  import opened PlayerInput

  class PlayerController {
    const health: Health
    var enabled: bool
    var moveInput: Axes
    var velocity: Vec2
    var rotation: real
    /** Whether `mainCamera` is set. */
    var hasCamera: bool

    /** `Awake`: cache the main camera and subscribe the death handler, once. */
    constructor (health: Health, cameraFound: bool, rotation: real)
      modifies health
      ensures this.health == health && enabled && moveInput == NoInput
      ensures velocity == Zero && this.rotation == rotation && hasCamera == cameraFound
      ensures health.deathListeners == old(health.deathListeners) + [this]
      ensures health.currentHealth == old(health.currentHealth) && health.events == old(health.events)
    {
      this.health := health;
      enabled := true;
      moveInput := NoInput;
      velocity := Zero;
      this.rotation := rotation;
      hasCamera := cameraFound;
      new;
      health.SubscribeDeath(this);
    }

    /** One frame of input, run only while enabled. */
    method Update(keyboardPresent: bool, keys: KeyState)
      modifies this`moveInput
      ensures moveInput == if enabled && keyboardPresent then KeyAxes(keys) else old(moveInput)
    {
      if enabled {
        HandleInput(keyboardPresent, keys);
      }
    }

    /** Without a keyboard the previous input is kept. */
    method HandleInput(keyboardPresent: bool, keys: KeyState)
      modifies this`moveInput
      ensures moveInput == if keyboardPresent then KeyAxes(keys) else old(moveInput)
    {
      if keyboardPresent {
        moveInput := ReadAxes(keys);
      }
    }

    /** One physics step, run only while enabled. */
    method FixedUpdate(smoothed: Vec2, cameraMainNow: bool, mousePresent: bool, aimAngle: real)
      modifies this`velocity, this`rotation, this`hasCamera
      ensures !enabled ==> unchanged(this)
      ensures enabled ==> velocity == smoothed && hasCamera == (old(hasCamera) || cameraMainNow)
      ensures enabled ==> rotation == if hasCamera && mousePresent then aimAngle else old(rotation)
    {
      if enabled {
        Move(smoothed);
        RotateTowardsMouse(cameraMainNow, mousePresent, aimAngle);
      }
    }

    method Move(smoothed: Vec2)
      modifies this`velocity
      ensures velocity == smoothed
    {
      velocity := smoothed;
    }

    /**
      Re-fetch the main camera when none is cached; without a camera or a
      mouse the rotation is left as it is.
     */
    method RotateTowardsMouse(cameraMainNow: bool, mousePresent: bool, aimAngle: real)
      modifies this`rotation, this`hasCamera
      ensures hasCamera == (old(hasCamera) || cameraMainNow)
      ensures !hasCamera || !mousePresent ==> rotation == old(rotation)
      ensures hasCamera && mousePresent ==> rotation == aimAngle
    {
      if !hasCamera {
        hasCamera := cameraMainNow;
      }
      if !hasCamera || !mousePresent {
        return;
      }
      rotation := aimAngle;
    }

    /** Switch the controller off and stop the body. */
    method HandleDeath()
      modifies this`enabled, this`velocity
      ensures !enabled && velocity == Zero
    {
      enabled := false;
      velocity := Zero;
    }
  }
}
